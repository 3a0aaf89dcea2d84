# Sereno incident bot, modelled in Dafny

Sereno is a Slack bot that runs incidents. A user mentions the bot, or uses the `/sereno` slash command, to open an incident. Each incident gets its own Slack channel:

- the channel is named after the incident, or numbered when it has no name;
- the bot announces the incident there, with links to a Jira ticket and a Zoom call when the team has those integrations;
- it invites the team's responders and on-call person, and notifies responder channels.

Later messages in the incident channel can log comments on the ticket, ask for the call link or close the incident. The team's responders, its on-call person, its Slack token and its OAuth tokens live in a DynamoDB users table. Incidents live in an incidents table keyed by team and channel.

This project models that core and proves properties of it:

- **Domain values** (`slack_responder`, `token_data`, `date_time_utils`, `integrations`, `incident`):
  - responder kinds;
  - token expiry against a clock passed in as a value;
  - the fixed timestamp layout and its parse/format round trip;
  - the Jira and Zoom records, and the ticket code read from a `/browse/` link;
  - the incident entity, a class whose ticket and call are set in place.
- **Persistence** (`dynamo`): a class holding the two tables as maps.
  - Responder `ADD`/`DELETE` are set union and difference.
  - A conditional status update only touches an existing row.
  - The ongoing and today filters are loops proved to keep input order.
- **Services** (`responders_list`, `responders_service`, `user_service`, `incident_service`, `jira_api_service`, `zoom_api_service`, `jira_oauth_service`, `zoom_oauth_service`, `oauth`):
  - the integration registry;
  - refresh-before-use of access tokens: the refresh-token grant of section 6 of RFC 6749, where Jira keeps the old refresh token and Zoom replaces it;
  - ticket and call creation, whose outcomes are fixed by the state on entry and the servers' replies (`IncidentService.IncidentService.PlannedTicket` and `PlannedCall`);
  - the comment-logging decision tree;
  - closing.
- **The Slack workflow** (`slack_events_handler`, `slack_commands_handler`):
  - the decision to open an incident or to ask for confirmation;
  - channel naming and channel creation;
  - the announcement and topic;
  - inviting users and notifying channels;
  - the close path;
  - the responder command replies.
- **Text processing** (`handler`, `mention`, `commands`, `message`, `text`, `base64`, `utf8`, `register_command`):
  - incident-name sanitising;
  - routing of mentions, slash commands and channel messages;
  - the OAuth `state` parameter, which is Base64 (section 4 of RFC 4648) of the UTF-8 of `team:user` and is decoded and split back by the callbacks.
- **Formatters** (`new_incident_formatter`, `create_incident_confirm_formatter`, `responders_list_formatter`): which link fields appear, name defaulting, and block counts and order.

The outside world is passed in:

- **Slack, HTTP and the clock.** Each client object (`Transport.SlackClient`, `Transport.HttpClient`) keeps a log of what it sent. The reply to each request comes from a response function fixed when the client is made, so every proof holds for every server behaviour. The clock is an `Instant` parameter.
- **Python's exceptions and `None`.** An exception is a `Result` failure. `None` is an `Option`.
- **Imperative code.** Code that updates objects in place is modelled as classes whose methods state their whole new state. Pure code is modelled as functions and lemmas.

## Model

| member | source | states |
|---|---|---|
| SlackResponders.KindOf | domain/slack_responder.py:11-15 | the kind is User exactly when `is_user` holds (first character 'U'), Channel exactly when `is_channel` holds (first character 'C'), and Neither exactly when the first character is neither; both predicates need a non-empty id |
| SlackResponders.KindIsFirstCharacter | domain/slack_responder.py:8-15 | no id is both a user and a channel, and two ids with the same first character have the same kind |
| SlackResponders.RespondersFromTests | tests/test_slack_responders.py:5-17 | 'UserResponderID' is a user and not a channel; 'ChannelResponderID' is a channel and not a user |
| Tokens.IsAccessTokenExpired | domain/token_data.py:18-22 | the check fails (strptime raises) exactly when the expiry is absent or not in the fixed layout; otherwise the token is expired iff its expiry is at or before now |
| Tokens.ExpiredAtExpiryInstant | domain/token_data.py:18-22 | an expiry equal to now counts as expired |
| Tokens.FreshTokenNotExpired | domain/token_data.py:18-22 | an expiry computed from a positive `expires_in` is not yet expired at the moment it is computed |
| DateTimeUtils.Format | utils/date_time_utils.py:9 | every formatted timestamp is the 19-character "%Y-%m-%d %H:%M:%S" layout, as `strftime` writes it for the years 1000 to 9999 |
| DateTimeUtils.Parse | utils/date_time_utils.py:9 | parsing succeeds only on a string in the fixed layout and reads its six fields; it fails when the layout does not match or the fields are not a real date and time |
| DateTimeUtils.ParseFormat | utils/date_time_utils.py:9 | parsing a formatted timestamp gives back the original datetime |
| DateTimeUtils.FormatParse | utils/date_time_utils.py:9 | formatting a parsed string gives back the string, so the layout is a bijection on valid timestamps |
| DateTimeUtils.CurrentDatetimeAsString | utils/date_time_utils.py:20-22 | the current-time string parses back to the clock value it was made from |
| DateTimeUtils.CurrentDate | utils/date_time_utils.py:24-26 | today is the date part of the clock value and is a valid date |
| DateTimeUtils.ConvertStringDateToDateOnly | utils/date_time_utils.py:28-30 | succeeds exactly when the string parses, and then yields its date part, dropping the time of day |
| DateTimeUtils.DateOnlyOfFormatted | utils/date_time_utils.py:20-30 | formatting a datetime and converting it to a date gives the date of the original datetime |
| DateTimeUtils.AddSeconds | utils/date_time_utils.py:16 | adding seconds moves the time of day by that many seconds modulo a day; a result iff the day reached by the whole days carried stays in years 1..9999 (Python's OverflowError otherwise), and then its date is that day |
| DateTimeUtils.AddSecondsLater | utils/date_time_utils.py:16 | adding a non-negative number of seconds never moves earlier, and a positive number moves strictly later |
| DateTimeUtils.CalculateExpirationDateFromSeconds | utils/date_time_utils.py:11-18 | succeeds exactly when `expires_in` is present and now plus that many seconds is representable, and then is the formatted sum |
| DateTimeUtils.ExpirationNotBeforeNow | utils/date_time_utils.py:12-18 | a non-negative `expires_in` gives an expiry that parses and is not before now; a positive one gives an expiry strictly after now |
| Integrations.NewJira | domain/integrations/jira.py:8-11 | a new Jira record stores its token data and account id unchanged and starts with link "" |
| Integrations.NewZoom | domain/integrations/zoom.py:8-10 | a new Zoom record stores its token data unchanged and starts with link "" |
| Integrations.GetType | domain/integrations/jira.py:34-35 | the type is TICKET exactly for Jira records and CALL exactly for Zoom records (domain/integrations/zoom.py:32-33) |
| Integrations.CodeFollowsOnlySeparator | domain/integrations/jira.py:26-32 | a code exists only when the link splits around exactly one "/browse/", and then it is the text after it |
| Integrations.NoSeparatorNoCode | domain/integrations/jira.py:27-32 | a Jira link without "/browse/", the empty link included, has no code |
| Integrations.ZoomHasNoCode | domain/integrations/zoom.py:26-33 | a Zoom record never has a code and is always of type CALL |
| Incidents.StatusName | domain/incident.py:53-56 | each status is stored under one of the three names "ONGOING", "MITIGATED", "CLOSED" |
| Incidents.StatusNamesDistinct | domain/incident.py:53-56 | two statuses have the same name iff they are the same status |
| Incidents.StartedToday | domain/incident.py:37-44 | false without a start time; otherwise it raises exactly when the start time does not parse, and is true iff its date is today |
| Incidents.StampedTodayIsFromToday | domain/incident.py:37-44 | an incident stamped with the current time is from today |
| Incidents.OtherDayIsNotToday | domain/incident.py:37-44 | a start time on any other day is not from today, whatever the time of day |
| Incidents.Incident.constructor | domain/incident.py:11-18 | a new incident keeps its team, channel and name, is ONGOING, is stamped with the current datetime string, and has neither ticket nor call |
| Incidents.Incident.BuildFromDict | domain/incident.py:20-29 | the rebuilt incident has the row's ids, name and start time, the raw status string rather than the enum, and neither ticket nor call |
| Incidents.Incident.SetCall | domain/incident.py:31-32 | only the call changes |
| Incidents.Incident.SetTicket | domain/incident.py:34-35 | only the ticket changes |
| Dynamo.Union | utils/dynamo.py:78 | `ADD` on a string set: the result holds exactly the ids in either set, keeps the old set first and in order, and adds no duplicate |
| Dynamo.Difference | utils/dynamo.py:111 | `DELETE` on a string set: the result holds exactly the old ids not removed, is no longer, and adds no duplicate |
| Dynamo.DifferenceOfUnion | utils/dynamo.py:106-115 | adding ids and then removing a superset of them is the same as only removing |
| Dynamo.AddThenRemove | utils/dynamo.py:106-115 | removing the ids just added undoes the addition, except for ids that were already there and are removed as well |
| Dynamo.StoredSet | utils/dynamo.py:106-115 | a non-empty set is stored as is; removing the last id leaves no `responders` attribute |
| Dynamo.NewResponders | utils/dynamo.py:73-82 | the `UPDATED_NEW` reply carries `Attributes` with the new `responders` exactly when the attribute exists after the update |
| Dynamo.DynamoUtils.constructor | utils/dynamo.py:16-24 | both tables start empty |
| Dynamo.DynamoUtils.SaveJiraData | utils/dynamo.py:26-42 | `set apps.jira` replaces only the team's "jira" app entry with the account id and the three token fields, after which `get_jira_data` returns that record; the update fails, changing nothing, when the team has no `apps` map |
| Dynamo.DynamoUtils.SaveZoomData | utils/dynamo.py:44-59 | `set apps.zoom` replaces only the team's "zoom" app entry with the three token fields, after which `get_zoom_data` returns that record; it fails, changing nothing, without an `apps` map |
| Dynamo.DynamoUtils.SaveSlackAccessToken | utils/dynamo.py:61-70 | sets the team's access token and creates an empty `apps` map only where none exists; nothing else changes |
| Dynamo.DynamoUtils.SaveResponders | utils/dynamo.py:72-82 | the team's responder set becomes the union with the given ids, and the reply carries the updated set |
| Dynamo.DynamoUtils.RemoveResponders | utils/dynamo.py:105-115 | the team's responder set becomes the difference, and the reply carries what is left (no attribute once empty) |
| Dynamo.DynamoUtils.SaveOncall | utils/dynamo.py:84-93 | only the team's `oncall` attribute changes, to the given user |
| Dynamo.DynamoUtils.GetOncall | utils/dynamo.py:95-103 | the stored on-call id (or None) of a known team; "there was an error" for an unknown team |
| Dynamo.DynamoUtils.GetResponders | utils/dynamo.py:272-282 | the stored responder ids; [] when the team is unknown or has no `responders` attribute |
| Dynamo.DynamoUtils.GetAuthorizedApps | utils/dynamo.py:218-227 | the team's `apps` map when the team and the map exist, otherwise the string "there was an error" |
| Dynamo.DynamoUtils.GetSlackAccessToken | utils/dynamo.py:229-237 | the stored access token of a known team; "there was an error" for an unknown team |
| Dynamo.DynamoUtils.GetJiraData | utils/dynamo.py:255-270 | a Jira record exactly when the apps map has a "jira" entry, built from that entry's token fields and account id; None otherwise |
| Dynamo.DynamoUtils.GetZoomData | utils/dynamo.py:239-253 | a Zoom record exactly when the apps map has a "zoom" entry, built from that entry's token fields; None otherwise |
| Dynamo.DynamoUtils.CreateIncident | utils/dynamo.py:117-134 | `put_item` writes the row under (team, incident) with "" for a missing call or ticket link and the status name; a raw-string status has no `.name` and raises, writing nothing |
| Dynamo.DynamoUtils.UpdateIncidentStatus | utils/dynamo.py:136-151 | the update succeeds iff the (team, incident) row exists, and then changes only that row's status to the requested one, with no transition check; otherwise nothing changes and the result is None |
| Dynamo.DynamoUtils.GetIncident | utils/dynamo.py:153-172 | None iff no row has that key; a found incident is ONGOING, keeps the stored name and start time, and always gets a Jira ticket and a Zoom call carrying the stored links |
| Dynamo.DynamoUtils.QueryTeam | utils/dynamo.py:177-180 | the query returns each of the team's rows exactly once, in some order |
| Dynamo.DynamoUtils.GetOngoingIncidents | utils/dynamo.py:174-185 | the team's ongoing incidents are the ongoing filter of the queried rows |
| Dynamo.DynamoUtils.GetTodayIncidents | utils/dynamo.py:187-198 | the team's incidents from today are the today filter of the queried rows, or [] when a start time fails to parse |
| Dynamo.OngoingRows | utils/dynamo.py:201-207 | keeps exactly the rows whose status is "ONGOING" and never more rows than given |
| Dynamo.FilterOngoingIncidents | utils/dynamo.py:200-207 | the loop rebuilds, in input order, exactly the incidents of the ongoing rows |
| Dynamo.FilterTodayIncidents | utils/dynamo.py:209-216 | the loop succeeds iff every start time parses, and then rebuilds, in input order, exactly the incidents of the rows started today |
| Dynamo.OngoingRowsSnoc | utils/dynamo.py:203-206 | one more row is kept at the end iff its status is "ONGOING", so the filter keeps input order |
| Dynamo.TodayRowsSnoc | utils/dynamo.py:212-215 | one more row is kept at the end iff it started today, and a start time that does not parse raises |
| Dynamo.TodayRowsKeepsToday | utils/dynamo.py:209-216 | the today filter succeeds iff every start time parses, and then keeps exactly the rows started today, whatever their status |
| Dynamo.TodayRowsFailsWithRow | utils/dynamo.py:213-214 | a single unparsable start time makes the whole filter raise |
| Dynamo.DynamoUtils.StoredIncidentListedOngoing | utils/dynamo.py:201-207 | over the whole table: a stored incident of the team is among the rows the ongoing filter keeps from any listing of the team iff it was stored with status "ONGOING" |
| RespondersList.BuildRespondersList | domain/responders_list.py:57-63 | one responder per id, same length, same order |
| RespondersList.List | domain/responders_list.py:11-18 | the team's stored ids, as responders, in stored order |
| RespondersList.Add | domain/responders_list.py:20-33 | the stored set becomes the union with the new ids, and the result is the whole updated set ([] when the reply has no responders, which happens only when the set is empty); other teams and the on-call id are untouched |
| RespondersList.Remove | domain/responders_list.py:35-48 | the stored set becomes the difference, and the result is what remains ([] once nothing remains); other teams and the on-call id are untouched |
| RespondersService.WithOncallExtends | services/responders_service.py:33-41 | the merged list starts with the stored responders in order, is n or n+1 long, and holds exactly the stored ids plus the on-call id when there is one |
| RespondersService.WithOncallNoDuplicates | services/responders_service.py:37-40 | the on-call id is appended only when no responder has it, so a list without duplicates stays without duplicates |
| RespondersService.WithOncallIdempotent | services/responders_service.py:37-41 | merging the on-call id a second time changes nothing |
| RespondersService.UnknownTeamNotifiesErrorText | services/responders_service.py:33-41 | for a team with no stored item, `get_oncall`'s "there was an error" is what gets merged in as the only responder |
| RespondersService.RespondersService.constructor | services/responders_service.py:15-16 | the service keeps the team id (and the store it reads) |
| RespondersService.RespondersService.GetOncall | services/responders_service.py:18-20 | delegates to the store: the stored on-call id, or "there was an error" for an unknown team |
| RespondersService.RespondersService.GetResponders | services/responders_service.py:22-24 | the responders stored for the service's team, as `RespondersList.list` gives them |
| RespondersService.RespondersService.Listed | services/responders_service.py:37-39 | the `any(...)` scan is true iff some responder has the id |
| RespondersService.RespondersService.GetRespondersWithOncall | services/responders_service.py:26-41 | the stored responders in order, with the on-call id appended last iff it is set and not already listed |
| RespondersService.RespondersService.SetOncall | services/responders_service.py:43-45 | the team's on-call id becomes the user; its responders and every other team are unchanged |
| RespondersService.RespondersService.SetResponders | services/responders_service.py:47-49 | the team's set becomes the union with the ids and is returned; the on-call id is unchanged |
| RespondersService.RespondersService.RemoveResponders | services/responders_service.py:51-53 | the team's set becomes the difference and is returned; the on-call id is unchanged |
| RespondersListFormatter.Format | slack_message_formatters/responders_list_formatter.py:10-23 | the loop's output is the message prefix followed by the numbered line of every responder, numbering from 1, in list order |
| RespondersListFormatter.LinesAppend | slack_message_formatters/responders_list_formatter.py:15-22 | the lines of two lists are the lines of the first followed by those of the second, numbered on from where the first stopped |
| RespondersListFormatter.LinesAt | slack_message_formatters/responders_list_formatter.py:15-22 | the k-th responder's line sits between the lines before it and after it, and carries number first + k |
| RespondersListFormatter.LinesSnoc | slack_message_formatters/responders_list_formatter.py:15-22 | one more loop round appends exactly that responder's line |
| RespondersListFormatter.NeitherKindPrintsNothing | slack_message_formatters/responders_list_formatter.py:16-22 | responders that are neither users nor channels add no text, although each still uses up a number |
| RespondersListFormatter.MentionLines | slack_message_formatters/responders_list_formatter.py:16-21 | a user's line is "k. <@id> \n" and a channel's line is "k. <#id> \n" |
| SlackCommandsHandler.Responders | domain/responders_list.py:58-63 | the responders built from ids carry exactly those ids in order |
| SlackCommandsHandler.AddReplyErrorIff | slack_handlers/slack_commands_handler.py:36-41 | adding replies "There was an error adding responders" iff the resulting list is empty; otherwise it formats the list under "Responders added: \n" |
| SlackCommandsHandler.AddErrorOnlyWhenNothing | slack_handlers/slack_commands_handler.py:36-39 | the error reply comes back only when nothing was stored and nothing was added |
| SlackCommandsHandler.RemoveReplyEmptyIff | slack_handlers/slack_commands_handler.py:43-48 | removing replies "Responders removed. List is empty" iff nothing remains; otherwise it formats the remaining list under the "updated list" prefix |
| SlackCommandsHandler.ListReplyEmptyIff | slack_handlers/slack_commands_handler.py:50-54 | listing replies "Responders list is empty" iff nothing is stored; otherwise it uses the default "Responders: \n" prefix |
| SlackCommandsHandler.StoredIdsNonEmpty | slack_handlers/slack_commands_handler.py:36-54 | stored responder ids are never empty, so the formatter can read each id's first character |
| SlackCommandsHandler.SlackCommandsHandler.constructor | slack_handlers/slack_commands_handler.py:18-20 | the handler and its responders service share the team id |
| SlackCommandsHandler.SlackCommandsHandler.AddResponders | slack_handlers/slack_commands_handler.py:36-41 | the stored set becomes the union with the ids, and the reply is the add reply for the updated set |
| SlackCommandsHandler.SlackCommandsHandler.RemoveResponders | slack_handlers/slack_commands_handler.py:43-48 | the stored set becomes the difference, and the reply is the remove reply for what remains |
| SlackCommandsHandler.SlackCommandsHandler.ListResponders | slack_handlers/slack_commands_handler.py:50-54 | the reply is the list reply for the stored set |
| SlackCommandsHandler.SlackCommandsHandler.SetOncall | slack_handlers/slack_commands_handler.py:56-57 | the team's on-call id becomes the user |
| JiraOauthService.AccessTokenRequest | services/oauth_services/jira_oauth_service.py:97-106 | the code-exchange body carries grant_type "authorization_code", the code and the redirect URI, posted to the token URL |
| JiraOauthService.RefreshTokenRequest | services/oauth_services/jira_oauth_service.py:108-116 | the refresh body carries grant_type "refresh_token", the client id and the current refresh token, posted to the token URL |
| JiraOauthService.TokenFields | services/oauth_services/jira_oauth_service.py:60-64 | reads `access_token`, `refresh_token` and `expires_in` from the JSON reply; it raises when the body is not a JSON object or `expires_in` is missing or unusable |
| JiraOauthService.TokenDataFromReply | services/oauth_services/jira_oauth_service.py:60-66 | the token data holds the reply's access token, refresh token, and now plus `expires_in` as expiry |
| JiraOauthService.RefreshedFromReply | services/oauth_services/jira_oauth_service.py:84-95 | the refreshed token data holds the reply's access token and expiry but the old refresh token |
| JiraOauthService.RefreshKeepsRefreshToken | services/oauth_services/jira_oauth_service.py:86-88 | a Jira refresh never changes the refresh token, and with a positive `expires_in` the new token is not due for refresh |
| JiraOauthService.JiraIdRequest | services/oauth_services/jira_oauth_service.py:28-33 | a GET of the accessible-resources URL with a bearer header; a missing access token raises while building the header |
| JiraOauthService.JiraIdFromReply | services/oauth_services/jira_oauth_service.py:34-42 | succeeds iff the reply is a non-empty JSON list whose first entry has a non-empty string "name", and then returns that name |
| JiraOauthService.GetJiraId | services/oauth_services/jira_oauth_service.py:23-42 | sends exactly the id request (or nothing when the header cannot be built) and returns the name read from its reply |
| JiraOauthService.GetTokenData | services/oauth_services/jira_oauth_service.py:44-66 | sends exactly the code-exchange request and returns the token data read from its reply |
| JiraOauthService.RefreshAccessToken | services/oauth_services/jira_oauth_service.py:68-95 | sends exactly the refresh request with the current refresh token and returns the refreshed token data, old refresh token kept |
| ZoomOauthService.AccessTokenRequest | services/oauth_services/zoom_oauth_service.py:29-54 | the code-exchange form carries grant_type "authorization_code", the code and the redirect URI, with HTTP basic auth of the client id and secret |
| ZoomOauthService.RefreshTokenRequest | services/oauth_services/zoom_oauth_service.py:63-91 | the refresh form is exactly grant_type "refresh_token" plus the current refresh token, with HTTP basic auth |
| ZoomOauthService.TokenDataFromReply | services/oauth_services/zoom_oauth_service.py:39-45 | the token data is read from `access_token`, `refresh_token` and `expires_in` exactly as in the Jira code exchange |
| ZoomOauthService.RefreshedFromReply | services/oauth_services/zoom_oauth_service.py:71-86 | None for any status other than 200; on 200 the reply's access token, refresh token and expiry; a failed request raises |
| ZoomOauthService.RefreshReplacesRefreshToken | services/oauth_services/zoom_oauth_service.py:71-83 | a refreshed token exists only after status 200, and its refresh token is the one in the reply, replacing the old one |
| ZoomOauthService.GetTokenData | services/oauth_services/zoom_oauth_service.py:22-45 | sends exactly the code-exchange request and returns the token data read from its reply |
| ZoomOauthService.RefreshAccessToken | services/oauth_services/zoom_oauth_service.py:56-86 | sends exactly the refresh request and returns what the reply yields |
| OAuth.RefreshDue | services/jira_api_service.py:96-101 | the cached token is used (no refresh) exactly when an expiry is stored and has not passed; a stored expiry that does not parse raises; the same test guards the Zoom adapter (services/zoom_api_service.py:75-81) |
| OAuth.RefreshDueWithoutExpiry | services/jira_api_service.py:96-103 | a missing expiry, or an expiry equal to now, forces a refresh |
| OAuth.FreshTokenNotDue | services/jira_api_service.py:96-100 | a token whose expiry was computed from a positive `expires_in` is used without refresh at that moment |
| JiraApiService.CommentResponseOf | services/jira_api_service.py:58-63 | the comment reply always carries the status code; "success" True iff the status is 201, and a descriptive error iff it is not |
| JiraApiService.TicketLinkFromReply | services/jira_api_service.py:40-47 | no ticket for a status other than 201; on 201 the link is the ticket base URL plus "/" plus the reply's "key", and a reply without a string "key" fails (see Left out), as does a failed request |
| JiraApiService.TicketLinkShape | services/jira_api_service.py:65-66 | a ticket link is "https://" + account + ".atlassian.net/browse/" + key |
| JiraApiService.FirstBrowseAfterSite | services/jira_api_service.py:22-30 | in a ticket link the first "/browse/" is the one right after the site, when the account has no '/' |
| JiraApiService.TicketCodeRoundTrip | services/jira_api_service.py:65-66 | `get_code` of a created ticket link gives back the ticket key, when neither account nor key contains '/' (domain/integrations/jira.py:26-32) |
| JiraApiService.JiraApiService.constructor | services/jira_api_service.py:24-30 | the adapter keeps the team's valid Jira record, and its URLs are built from the record's account id |
| JiraApiService.NewJiraApiService | services/jira_api_service.py:24-30 | construction succeeds iff the stored Jira data exists and is valid (token data valid and account id non-empty); otherwise it raises |
| JiraApiService.JiraApiService.GetAccessToken | services/jira_api_service.py:91-108 | with an unexpired stored expiry it returns the cached token and sends and saves nothing; otherwise it sends exactly one refresh, replaces the token data (refresh token kept), saves the Jira record and returns the new access token; a refresh or save that fails raises. It raises exactly when `TokenPlan`, fixed before the call by the token data, the clock, the reply a refresh would get and whether the record exists, says so, and otherwise returns the plan's token |
| JiraApiService.JiraApiService.Authorization | services/jira_api_service.py:68-74 | the bearer header uses the current access token, refreshing at most once first; it succeeds exactly when the token plan yields a token, and then returns that token; a missing token raises on concatenation |
| JiraApiService.JiraApiService.CreateTicket | services/jira_api_service.py:32-47 | when the token plan yields no token it raises with the link unchanged; otherwise the last request sent is the issue request with that token dated today, and that request's reply alone decides the outcome: it raises iff the reply cannot be read as a ticket, gives None on a status other than 201, and on 201 sets the record's link to the new ticket URL and returns the record; nothing is caught |
| JiraApiService.JiraApiService.PostIssue | services/jira_api_service.py:32-47 | sends exactly the issue request with the given token, dated today; raises iff its reply cannot be read as a ticket, with the record unchanged; None on a status other than 201; on 201 only the link changes, to the new ticket URL, and the record is returned |
| JiraApiService.JiraApiService.AddComment | services/jira_api_service.py:49-63 | when the token plan yields no token it raises; otherwise the last request sent is the comment request to the ticket with that token, and it raises iff that request's connection failed, else returns the reply's status, success only for 201 |
| ZoomApiService.UserIdFromReply | services/zoom_api_service.py:66-68 | the user id is the reply's string "id", and there is none when the reply lacks it |
| ZoomApiService.MeetingLinkFromReply | services/zoom_api_service.py:54-61 | a meeting exists exactly on status 201 with a JSON object body, and its link is the reply's "join_url" when that is a string ("" otherwise, see Left out) |
| ZoomApiService.ZoomApiService.constructor | services/zoom_api_service.py:26-30 | the adapter keeps the team's Zoom record |
| ZoomApiService.NewZoomApiService | services/zoom_api_service.py:26-30 | construction succeeds iff the stored Zoom data exists and its token data is valid; otherwise it raises |
| ZoomApiService.ZoomApiService.GetAccessToken | services/zoom_api_service.py:70-90 | with an unexpired stored expiry it returns the cached token and sends and saves nothing; an expired or missing expiry with no refresh token raises; otherwise it sends exactly one refresh, replaces the token data with the reply's (refresh token included), saves the Zoom record and returns the new access token; a non-200 refresh leaves no token data, so the access that follows raises. It raises exactly when `TokenPlan`, fixed before the call, says so, and otherwise returns the plan's token |
| ZoomApiService.ZoomApiService.Authorization | services/zoom_api_service.py:32-37 | the bearer header uses the current access token, refreshing at most once first; it succeeds exactly when the token plan yields a token, and then returns that token |
| ZoomApiService.ZoomApiService.CreateCall | services/zoom_api_service.py:39-64 | the requests sent are exactly the refresh when one is due, then, when a token is obtained, the user lookup with it and, when that reply names a user, the meeting request for that user; the result is the outcome `CallOutcome` fixes from the entry state and the replies to those requests: a call only when the meeting reply is 201, its link the join URL; every other outcome, exceptions included, is None with the link unchanged |
| ZoomApiService.CallEndsShape | services/zoom_api_service.py:39-64 | from that whole-call relation: at most three requests are added after the old ones, and a call is returned only when the user lookup with the current token is the second-to-last request sent, the meeting request for the user its reply names is the last, and the meeting reply's join URL is the new link |
| ZoomApiService.ZoomApiService.OpenMeeting | services/zoom_api_service.py:39-61 | sends the user lookup with the given token; without a user id in its reply nothing else is sent and there is no call; otherwise it sends the meeting request for that user, and on a 201 object reply only the link changes and the record is returned; the result is the one `MeetingOutcome` fixes from the replies at the entry position |
| UserService.ServiceType | services/incident_service.py:133-141 | a Jira adapter is of type TICKET and a Zoom adapter of type CALL (services/jira_api_service.py:16, services/zoom_api_service.py:18) |
| UserService.ErrorTextHasNoApps | services/user_service.py:21-25 | when the apps lookup fails, `"jira" in apps` and `"zoom" in apps` are substring tests on "there was an error" and both are false |
| UserService.GetIntegratedServices | services/user_service.py:15-26 | a Jira adapter iff "jira" is in the apps and a Zoom adapter iff "zoom" is, at most one of each, Jira first, each over the team's stored record; [] when neither is authorised; it raises iff an authorised app's stored data is missing or invalid |
| IncidentService.LastTicket | services/incident_service.py:133-141 | the loop leaves a ticket service iff some integrated service is of type TICKET, and then it is the last such one: a later service of the same type overwrites an earlier one |
| IncidentService.LastCall | services/incident_service.py:133-141 | likewise for CALL: present iff some service is a call service, and then the last one |
| IncidentService.IssueIdOf | services/incident_service.py:84 | `link.split("browse/")[1]` exists exactly when the link contains "browse/"; otherwise it raises IndexError |
| IncidentService.IssueIdOfTicketUrl | services/incident_service.py:84 | the issue id taken from a created ticket link is the ticket key (services/jira_api_service.py:65-66) |
| IncidentService.NoEarlierIssueSeparator | services/incident_service.py:84 | no "browse/" starts inside the site part of a ticket link whose account has no '/' |
| IncidentService.IncidentService.constructor | services/incident_service.py:22-24 | the ticket and call services are the last ones of their type among the integrated services |
| IncidentService.IncidentService.CreateTicket | services/incident_service.py:105-117 | None without a ticket service; otherwise the adapter's result, which when present is the adapter's Jira record, and which the adapter's token plan and issue reply decide as for `JiraApiService.JiraApiService.CreateTicket`; adapter exceptions pass through; it raises iff `PlannedTicket` of the entry state is None, and otherwise returns the ticket that plan names |
| IncidentService.IncidentService.CreateCall | services/incident_service.py:119-131 | None without a call service; otherwise the adapter's result, which when present is the adapter's Zoom record, and which is the call the adapter's `CallPlan` fixes from the entry state, as for `ZoomApiService.ZoomApiService.CreateCall` |
| IncidentService.IncidentService.SaveNewIncident | services/incident_service.py:39-47 | a fresh ongoing incident stamped with now, holding exactly the ticket and call that exist, is written once to the incidents table |
| IncidentService.IncidentService.CreateIntegrations | services/incident_service.py:33-36 | the ticket step runs first, and the call step only when the ticket adapter did not raise; without a ticket service the ticket is None, without a call service the call is None, and each one present is the record of its own service; the ticket step raises iff `PlannedTicket` of the entry state is None; otherwise the ticket is the planned one and the call is the one `PlannedCall` fixes from the entry state, its replies coming after the ticket step's requests when both adapters share one client |
| IncidentService.IncidentService.TicketStep | services/incident_service.py:33 | the ticket step: it raises iff `PlannedTicket` of the entry state is None and otherwise returns the planned ticket, the adapter's own record when present; it leaves the call adapter's record and the team's apps as they were, and the call client's requests end where `CallBase` said the call step's replies start |
| IncidentService.IncidentService.CallPlanKept | services/incident_service.py:33-36 | after a ticket step that kept the call adapter's state, the call the adapter is planned to make is the one `PlannedCall` fixed before it |
| IncidentService.IncidentService.CallStep | services/incident_service.py:36 | the call step: None without a call service; otherwise the call the adapter's `CallPlan` fixes from the state it starts in, the adapter's own record when present; the ticket adapter's record is untouched |
| IncidentService.IncidentService.CreateIncident | services/incident_service.py:26-47 | the ticket is attempted before the call; each is attached only when it exists and comes from the service of its type; the incident is written once and returned; creation fails iff the ticket step raised, which is iff `PlannedTicket` of the entry state is None, and then writes nothing; without a ticket service nothing raises and no ticket is attached, without a call service no call is; the saved incident holds exactly the ticket and call the two steps returned, which are those `PlannedTicket` and `PlannedCall` fix from the entry state |
| IncidentService.IncidentService.GetCall | services/incident_service.py:49-54 | the stored call link of the incident, or "" when there is no such incident |
| IncidentService.IncidentService.GetOngoingIncidents | services/incident_service.py:56-58 | the team's ongoing incidents as the store filters them |
| IncidentService.IncidentService.GetTodayIncidents | services/incident_service.py:60-62 | the team's incidents started today, whatever their status |
| IncidentService.IncidentService.CloseIncident | services/incident_service.py:64-68 | an existing row gets status "CLOSED" whatever its previous status; a missing row yields no result and nothing changes |
| IncidentService.IncidentService.FindIssue | services/incident_service.py:70-86 | "Not ongoing incident ..." iff there is no incident, else "No ticket associated ..." iff its ticket link is empty, else "Could not log comment" iff the link holds no "browse/", else the issue id after it |
| IncidentService.IncidentService.CommentOnIssue | services/incident_service.py:87-103 | without a token from the adapter's plan, or when the comment request cannot be sent, "Could not log comment"; otherwise the last request is the comment to the issue with that token, and it is ok iff Jira answered 201, else the adapter's descriptive error |
| IncidentService.IncidentService.LogComment | services/incident_service.py:70-103 | fails with "Not ongoing incident ..." iff there is no incident, with "No ticket associated ..." when its ticket link is empty, and with "Could not log comment" when the issue id or the ticket service is missing; it is ok only after the comment was posted to the issue named after "browse/" and Jira answered 201; once incident, issue id and ticket service exist, the outcome is the one `CommentOnIssue` states for that issue; it never raises |
| SlackEventsHandler.Take | slack_handlers/slack_events_handler.py:178 | Python's `s[:14]`: a prefix of the name, at most 14 characters long |
| SlackEventsHandler.SlugIsChannelSafe | slack_handlers/slack_events_handler.py:173-177 | the stripped, hyphenated, lower-cased name is empty exactly when the stripped name is, and holds no space and no upper-case letter |
| SlackEventsHandler.NamedChannel | slack_handlers/slack_events_handler.py:170-178 | a non-blank name gives "i-" + the first 14 characters of the slug + "-" + dd-mm-yy, at most 25 characters, whatever the number of today's incidents |
| SlackEventsHandler.BlankNameNumbered | slack_handlers/slack_events_handler.py:179-182 | a blank name gives "i-sereno-" + dd-mm-yy + "_" + (n + 1), where n counts today's incidents |
| SlackEventsHandler.ConfirmedBlankNameNumbered | slack_message_formatters/create_incident_confirm_formatter.py:10-14 | a missing name is stored as " " in the confirm buttons, and that value sent back gives the numbered channel name (slack_handlers/slack_events_handler.py:173-182) |
| SlackEventsHandler.PartitionMembers | slack_handlers/slack_events_handler.py:222-226 | every id starting with 'U' goes to the user side, every id starting with 'C' to the channel side, and any other id to neither |
| SlackEventsHandler.Partition | slack_handlers/slack_events_handler.py:219-226 | the loop yields the user ids and the channel ids, each in responder order |
| SlackEventsHandler.NoticeCallsForChannels | slack_handlers/slack_events_handler.py:234-245 | notifying channels only joins and posts to channel-kind responders |
| SlackEventsHandler.NoticesFollowOkJoins | slack_handlers/slack_events_handler.py:235-245 | every announcement posted to a channel comes right after a join of that channel that answered ok True |
| SlackEventsHandler.OkJoinsGetNotices | slack_handlers/slack_events_handler.py:238-245 | every join that answered ok True is followed by the announcement to that channel |
| SlackEventsHandler.EveryChannelJoined | slack_handlers/slack_events_handler.py:234-237 | unless a call raised, every channel-kind responder was joined |
| SlackEventsHandler.ChannelNotice | slack_handlers/slack_events_handler.py:235-245 | one channel's notice is its join, possibly followed by one post |
| SlackEventsHandler.InviteFirstAndOnce | slack_handlers/slack_events_handler.py:228-245 | with at least one user id, the first call invites all of them in one call; every other call is a join of, or a post to, a channel responder |
| SlackEventsHandler.HeadlineRun | slack_handlers/slack_events_handler.py:148-161 | the announcement is posted in the incident channel first, followed by at most the topic call |
| SlackEventsHandler.Attached | slack_handlers/slack_events_handler.py:139-144 | the integrations list holds the ticket, then the call, each only when present |
| SlackEventsHandler.StoredIdsNonEmpty | slack_handlers/slack_events_handler.py:222-226 | every id the responders service hands out is non-empty, so `is_user`/`is_channel` never index an empty id |
| SlackEventsHandler.ChannelCreation | slack_handlers/slack_events_handler.py:185-213 | `conversations_create` comes first; a channel id is returned only when the reply carried one and the "Channel created - <#id>" confirmation did not raise; otherwise the last call is "Incident channel could not be created for team ..." to the calling channel, and the result raises exactly when that notice raises |
| SlackEventsHandler.NoticeResult | slack_handlers/slack_events_handler.py:192-203 | after the failure notice the result is "no channel", unless the notice itself raised |
| SlackEventsHandler.FilterFromToday | slack_handlers/slack_events_handler.py:50 | the comprehension keeps, in order, exactly the incidents started today, and raises iff a start time does not parse |
| SlackEventsHandler.NotifyChannel | slack_handlers/slack_events_handler.py:235-245 | sends exactly one channel's notice calls and raises iff one of them did |
| SlackEventsHandler.NotifyChannels | slack_handlers/slack_events_handler.py:234-245 | the loop sends exactly the notices of all channel responders, in order, and raises iff one of them did |
| SlackEventsHandler.SlackEventsHandler.constructor | slack_handlers/slack_events_handler.py:32-40 | the handler starts with an empty incident name, and its incident service holds the last ticket and call services of the team's integrations |
| SlackEventsHandler.NewSlackEventsHandler | slack_handlers/slack_events_handler.py:32-40 | construction raises iff an authorised app's adapter cannot be built; otherwise the handler has a ticket service iff "jira" is authorised and a call service iff "zoom" is |
| SlackEventsHandler.SlackEventsHandler.RespondersByKind | slack_handlers/slack_events_handler.py:216-226 | the user and channel ids of the responders merged with the on-call person |
| SlackEventsHandler.SlackEventsHandler.InviteAndNotify | slack_handlers/slack_events_handler.py:228-245 | sends the invitation (only when there are users) and then the channel notices, stopping at the first raised error |
| SlackEventsHandler.SlackEventsHandler.NotifyResponders | slack_handlers/slack_events_handler.py:215-245 | `__notify_responders`: exactly the invite and notices for the team's responders plus on-call person |
| SlackEventsHandler.SlackEventsHandler.Headline | slack_handlers/slack_events_handler.py:148-161 | posts the announcement, then sets the topic when there is one |
| SlackEventsHandler.SlackEventsHandler.Announce | slack_handlers/slack_events_handler.py:148-163 | the announcement and topic, then the responders' notifications, stopping at the first raised error |
| SlackEventsHandler.SlackEventsHandler.BuildChannelName | slack_handlers/slack_events_handler.py:170-183 | the channel name from the name and today's date; only a blank name reads the team's incidents to count today's |
| SlackEventsHandler.SlackEventsHandler.ReportChannelError | slack_handlers/slack_events_handler.py:205-213 | posts "Incident channel could not be created for team <team>" to the calling channel |
| SlackEventsHandler.SlackEventsHandler.CreateChannel | slack_handlers/slack_events_handler.py:185-203 | makes exactly the calls of the channel creation and leaves the store alone |
| SlackEventsHandler.SlackEventsHandler.OpenIncident | slack_handlers/slack_events_handler.py:132-168 | once the channel exists: an incident not saved (the ticket adapter raised) sends nothing and writes nothing; a saved one is in the table, is announced with the topic, and the responders are notified; a later error gives status "failed" and nothing is undone; the incident is saved iff `PlannedTicket` of the entry state names an outcome, and then with that ticket and the call `PlannedCall` fixes |
| SlackEventsHandler.SlackEventsHandler.SaveIncident | slack_handlers/slack_events_handler.py:135-137 | the incident is saved iff the ticket step did not raise, which is iff `PlannedTicket` of the entry state names an outcome, and then carries exactly the ticket and call the two steps returned, which are the planned ticket and the call `PlannedCall` fixes, each made by the team's own adapter; no ticket without a ticket service and no call without a call service |
| SlackEventsHandler.SlackEventsHandler.AnnounceIncident | slack_handlers/slack_events_handler.py:139-163 | announces the saved incident with the on-call person and its integrations, sets the topic and notifies the responders |
| SlackEventsHandler.SlackEventsHandler.BuildAnnouncement | slack_handlers/slack_events_handler.py:139-161 | the announcement blocks for the incident, and its topic: the name when not blank, else the call link when there is a call, else none |
| SlackEventsHandler.SlackEventsHandler.CreateIncidentWithChannel | slack_handlers/slack_events_handler.py:124-168 | `__create_new_incident`: the channel is named and created; without a channel id it raises "Error creating channel" (or the notice's error) and nothing is persisted; with one, the `try` block runs and its status is returned |
| SlackEventsHandler.SlackEventsHandler.CreateInChannel | slack_handlers/slack_events_handler.py:128-168 | continues from the channel outcome: raises without a channel id, otherwise runs the `try` block in the new channel |
| SlackEventsHandler.SlackEventsHandler.CreateNewIncident | slack_handlers/slack_events_handler.py:58-71 | keeps the name, posts "Ack... creating a new incident channel", runs `__create_new_incident`, and posts "This is embarrassing..." with the error when that raises |
| SlackEventsHandler.SlackEventsHandler.AcknowledgeAndCreate | slack_handlers/slack_events_handler.py:61-71 | an acknowledgement that raises stops everything; otherwise the creation runs |
| SlackEventsHandler.SlackEventsHandler.CreateAfterAck | slack_handlers/slack_events_handler.py:64-71 | an exception from `__create_new_incident` is reported once in the calling channel; a returned status, "failed" included, is not |
| SlackEventsHandler.SlackEventsHandler.Apologise | slack_handlers/slack_events_handler.py:66-71 | posts the "This is embarrassing..." message carrying the error to the calling channel |
| SlackEventsHandler.SlackEventsHandler.ListTodayOngoing | slack_handlers/slack_events_handler.py:49-50 | the team's ongoing incidents that started today, in order; raises iff a start time does not parse |
| SlackEventsHandler.SlackEventsHandler.ConfirmOngoing | slack_handlers/slack_events_handler.py:73-76 | posts the confirm blocks for the stored incident name and today's ongoing incidents to the calling channel, and changes nothing in the store |
| SlackEventsHandler.SlackEventsHandler.HandleNewIncidentCreation | slack_handlers/slack_events_handler.py:42-55 | keeps the name; creates a new incident iff no ongoing incident of the team started today; otherwise posts the confirm list and creates nothing |
| SlackEventsHandler.SlackEventsHandler.LogComment | slack_handlers/slack_events_handler.py:78-83 | nothing is posted when the comment was logged; otherwise the failure description is posted in the incident channel, and a channel without an incident is exactly the "not ongoing" failure |
| SlackEventsHandler.SlackEventsHandler.CloseIncidentAndAddResolution | slack_handlers/slack_events_handler.py:99-113 | an unknown incident gets "Error: trying to close a non existent incident!!" and no comment; a known one is set CLOSED whatever its status, gets "Incident closed!", and then its resolution is logged |
| SlackEventsHandler.SlackEventsHandler.ClosedIncidentIsFound | slack_handlers/slack_events_handler.py:99-110 | the resolution is logged iff the incident existed and "Incident closed!" was posted, and then the comment never fails for want of an incident |
| NewIncidentFormatter.LinkField | slack_message_formatters/new_incident_integrations_links.py:45-69 | an integration contributes a field iff its link is non-empty: a "Call ... Join" field for a call, a ticket field labelled by `get_code` for a ticket |
| NewIncidentFormatter.LinkFieldsCount | slack_message_formatters/new_incident_integrations_links.py:44-58 | the links section has one field per integration with a link, so it is empty iff no integration has a link |
| NewIncidentFormatter.LinkFieldsAppend | slack_message_formatters/new_incident_integrations_links.py:45-55 | the fields follow the order of the integrations |
| NewIncidentFormatter.TicketThenCall | slack_message_formatters/new_incident_integrations_links.py:45-55 | for an incident with a linked ticket and a linked call, the ticket field comes before the call field |
| NewIncidentFormatter.BuildLinksSection | slack_message_formatters/new_incident_integrations_links.py:43-58 | the loop gives a fields section iff there is at least one field, holding exactly the link fields in order; None otherwise |
| NewIncidentFormatter.BuildResponse | slack_message_formatters/new_incident_integrations_links.py:10-41 | always the heading and the name/on-call/channel section, the name defaulting to "No description set" and the on-call to "No oncall set"; a third, links block iff some integration has a non-empty link |
| CreateIncidentConfirmFormatter.DefaultName | slack_message_formatters/create_incident_confirm_formatter.py:10-14 | the kept name is never empty: a given non-empty name is kept as it is, otherwise a single space |
| CreateIncidentConfirmFormatter.CreateIncidentConfirmFormatter.constructor | slack_message_formatters/create_incident_confirm_formatter.py:10-14 | the formatter keeps the defaulted incident name |
| CreateIncidentConfirmFormatter.CreateIncidentConfirmFormatter.Format | slack_message_formatters/create_incident_confirm_formatter.py:16-69 | the question and a divider first; then, for each incident in order, its section (channel, start time, status) and a divider; the create/cancel buttons carrying the incident name last |
| RegisterCommand.BuildStateParam | slack_message_formatters/register_command/integrated_service.py:29-33 | the state parameter is Base64 text: whole four-character groups of alphabet symbols and padding (its round trip back to team and user is Handler.StateRoundTrip) |
| Base64.Symbol | slack_message_formatters/register_command/integrated_service.py:31 | each 6-bit value has a symbol of the standard alphabet (section 4 of RFC 4648) that maps back to that value |
| Base64.SymbolOfValue | functions/handler.py:55 | each alphabet symbol is the symbol of its own value, so the alphabet is a bijection onto 0..63 |
| Base64.EncodeGroup | slack_message_formatters/register_command/integrated_service.py:31 | three octets become four alphabet symbols |
| Base64.EncodeTail | slack_message_formatters/register_command/integrated_service.py:31 | a final one or two octets become four characters, symbols and `=` padding |
| Base64.Encode | slack_message_formatters/register_command/integrated_service.py:31 | `b64encode` gives 4 * ceil(n / 3) characters, each a symbol or padding |
| Base64.DecodeGroup | functions/handler.py:55 | a decoded group yields one to three octets, fewer than three only for the last group |
| Base64.Decode | functions/handler.py:55 | `b64decode` succeeds only on text whose length is a multiple of four |
| Base64.DecodeFullGroup | functions/handler.py:55 | decoding the encoding of three octets gives them back |
| Base64.DecodeTail | functions/handler.py:55 | decoding the padded encoding of a final one or two octets gives them back |
| Base64.DecodeCons | functions/handler.py:55 | decoding works group by group: a decodable first group is prepended to the decoding of the rest |
| Base64.DecodeEncode | functions/handler.py:55 | decoding inverts encoding for every octet sequence |
| Utf8.EncodeChar | slack_message_formatters/register_command/integrated_service.py:31 | a character becomes one to four octets, one exactly for ASCII, the later ones continuation octets |
| Utf8.Encode | slack_message_formatters/register_command/integrated_service.py:31 | the encoding of a text has at least one octet per character |
| Utf8.DecodeChar | functions/handler.py:55 | a decoded character consumes between one octet and the whole input |
| Utf8.DecodeEncodedChar | functions/handler.py:55 | decoding the encoding of a character gives the character back and consumes exactly its octets |
| Utf8.DecodeTwo | functions/handler.py:55 | a two-octet sequence decodes to its code point (U+0080..U+07FF) |
| Utf8.DecodeThree | functions/handler.py:55 | a three-octet sequence decodes to its code point (U+0800..U+FFFF, surrogates excluded) |
| Utf8.DecodeFour | functions/handler.py:55 | a four-octet sequence decodes to its code point (U+10000..U+10FFFF) |
| Utf8.DecodeEncode | functions/handler.py:55 | `.decode()` inverts `.encode("utf-8")` for every text |
| Utf8.EncodeAscii | slack_message_formatters/register_command/integrated_service.py:31 | an ASCII text encodes to one octet per character, equal to its code |
| Handler.MentionAt | functions/handler.py:32 | a match of the user-mention pattern at the head of a text is `<@`, then at least one character none of which is a vertical bar, then a closing `>` |
| Handler.LastClose | functions/handler.py:32 | the greedy match ends at the last `>` of the span: none follows it |
| Handler.RemoveMentions | functions/handler.py:151 | removing mentions never lengthens the text |
| Handler.RemoveMentionsAbsent | functions/handler.py:151 | a text without `<@` is left unchanged |
| Handler.LeadingMentionRemoved | functions/handler.py:151 | a leading bot mention is removed and the rest is processed on its own |
| Handler.GreedyMentionSwallowsText | functions/handler.py:32-151 | the greedy pattern removes everything from the first `<@` to the last `>` of two mentions, including the words between them |
| Handler.StripBounds | functions/handler.py:153 | `strip` never lengthens, is idempotent and leaves no whitespace at either end |
| Handler.SanitisedIsTrimmed | functions/handler.py:148-154 | a sanitised name is no longer than the input and has no leading or trailing whitespace |
| Handler.SanitiseKeepsPlainName | functions/handler.py:148-154 | a trimmed name with no mention and no command words is kept as it is |
| Handler.SanitiseCommand | functions/handler.py:148-154 | "<@bot> new incident NAME" sanitises to NAME |
| Handler.CodeOrDefault | functions/handler.py:53 | the code used is never empty: a given non-empty code is kept, a missing or empty one is replaced by the default |
| Handler.StateRoundTrip | functions/handler.py:55-56 | decoding the state parameter built for a team and a user gives that team and user back |
| Handler.DecodedStateIsPair | functions/handler.py:55-56 | a decodable state is the Base64 of the UTF-8 of "team:user" with exactly one colon |
| Handler.CallbackRoundTrip | functions/handler.py:53-56 | an OAuth callback carrying a state built by the register formatter yields the code (or its default), the team and the user |
| Mention.Route | functions/mention.py:22-77 | a mention with a subtype is never acted on; without one, a missing text raises (and only then) |
| Mention.RouteText | functions/mention.py:55-60 | the new-incident branch is taken iff no earlier phrase matches and the text asks for a new incident, and it carries the sanitised text as the name |
| Mention.RoutePrecedence | functions/mention.py:22-77 | each branch is taken iff there is no subtype, none of the earlier branch phrases occurs and its own phrase does, in the order alive, create ticket, create call, get call, new/create incident, who is/who’s oncall, ongoing incident(s) |
| Mention.NewIncidentNameIsSanitised | functions/mention.py:55-60 | the name handed to incident creation is the sanitised text, so it is trimmed and no longer than the message |
| Mention.OngoingNeedsOnlyIncident | functions/mention.py:72-75 | the ongoing test holds iff the text contains "ongoing" and "incident" (the "incidents" alternative adds nothing) |
| Mention.AliveReply | functions/mention.py:23 | the liveness reply is "Yes, <@user>! I am!" around the mentioning user's id |
| Mention.TicketReply | functions/mention.py:26-35 | no ticket iff the "Ticket not created" reply; a created ticket is announced with its link |
| Mention.CallReply | functions/mention.py:37-46 | no call iff the "Call not created" reply; a created call is announced with its link |
| Mention.GetCallReply | functions/mention.py:48-54 | a missing or empty link iff "No call available in this channel"; otherwise "Call: " and the link |
| Mention.OncallReply | functions/mention.py:64-71 | no on-call iff the "An oncall hasn't been set yet" reply; otherwise "<@id> is oncall" |
| Commands.Captures | functions/commands.py:13-14 | every id `re.findall` returns is non-empty and holds no vertical bar |
| Commands.Search | functions/commands.py:67-69 | an id `re.search` finds is non-empty and holds no vertical bar |
| Commands.SearchIsFirstCapture | functions/commands.py:67-69 | `re.search` finds a match iff `re.findall` lists one, and then it is the first listed |
| Commands.ResponderIds | functions/commands.py:39-41 | the responder list is the user-mention captures followed by the channel-link captures, each a non-empty id without a vertical bar |
| Commands.CapturesSkip | functions/commands.py:13-14 | text without `<` contributes no capture |
| Commands.EscapedCaptured | functions/commands.py:13-14 | an escaped user mention or channel link (`<@` or `<#`, the id, a vertical bar, the name and `>`) yields its id for its own pattern and nothing for the other |
| Commands.MentionsCaptured | functions/commands.py:13-14 | a run of escaped mentions yields exactly their ids, in order, for their own pattern |
| Commands.ResponderIdsRoundTrip | functions/commands.py:39-41 | for a command written as text then escaped user mentions then escaped channel links, the collected ids are exactly the users followed by the channels |
| Commands.TwoKindsCaptured | functions/commands.py:39-40 | on such a command the user pattern reads exactly the users and the channel pattern exactly the channels |
| Commands.CapturesFront | functions/commands.py:13-14 | a match at the front is captured up to the first vertical bar and the scan resumes there |
| Commands.GreedyCapture | functions/commands.py:67-69 | without a vertical bar after it, a capture runs to the end of the command, swallowing the `>` and any later mention |
| Commands.Route | functions/commands.py:29-97 | the register reply iff "register" occurs anywhere; add and remove carry the collected ids, and add warns iff there are none; set oncall carries the searched id; "oncall" without "set" gets no reply; close incident iff none of register, responders, oncall and help occurs and "close incident" does; the unknown-command hint iff none of the words occurs |
| Commands.RoutePrecedence | functions/commands.py:29-97 | one iff per reply: add, remove, list and the responders hint each hold iff "register" is absent, "responders" present and their own word decides the branch; a set-oncall reply iff "oncall" and "set" occur without "register" or "responders"; help iff "help" occurs and none of the earlier words |
| Commands.SetOncallFirstMention | functions/commands.py:65-81 | set oncall sets the first captured user when there is one, and gives the wrong-format reply otherwise |
| Commands.RegisterInNameWins | functions/commands.py:29 | any command containing "register", wherever it occurs, gets the register reply |
| Commands.OncallSetReply | functions/commands.py:74 | the confirmation is "<@id> set as oncall" around the id that was set |
| Message.ParcaReply | functions/message.py:20 | the joke reply names the message's author, "You probably meant Lisandro, <@user>! :tada:" |
| Message.Comment | functions/message.py:26 | removing every "LOG: " never lengthens the text |
| Message.Route | functions/message.py:19-27 | a message with a subtype is ignored; without one, a missing text raises (and only then) |
| Message.RouteText | functions/message.py:19-27 | the parca reply iff the text contains "parca"; otherwise a comment iff the text starts with "log:" in any case, and the comment is the text less every "LOG: " |
| Message.StartsWithLogLetters | functions/message.py:24 | the case-insensitive prefix test accepts exactly l/L, o/O, g/G and a colon as the first four characters |
| Message.UpperMarkerRemoved | functions/message.py:24-26 | "LOG: x" logs x when x holds no further marker |
| Message.LowerMarkerKept | functions/message.py:24-26 | "log: x" passes the prefix test but is logged whole, prefix included, since only the upper-case marker is removed |
| Text.ContainsWithin | functions/commands.py:29 | `p in s` holds whenever `p` occurs between any two texts |
| Text.IndexOf | functions/handler.py:56 | a found index is a place where the separator occurs, and none is found iff it does not occur |
| Text.IndexOfFirst | functions/handler.py:56 | the index found is the first place the separator occurs: it does not occur at any earlier index |
| Text.Split | functions/handler.py:56 | `str.split` always gives at least one piece |
| Text.JoinSplit | functions/handler.py:56 | joining the pieces of a split with the separator gives the text back |
| Text.SplitPiecesFree | functions/handler.py:56 | no piece of a split contains the separator |
| Text.SplitOnce | functions/handler.py:56 | text with exactly one `:` splits into the parts before and after it |
| Text.ReplaceAbsent | functions/message.py:26 | replacing a pattern that does not occur leaves the text unchanged |
| Text.RemoveShrinks | functions/handler.py:153 | removing every occurrence of a pattern never lengthens the text |
| Text.ReplaceCharByChar | slack_handlers/slack_events_handler.py:173-175 | replacing every space by a hyphen keeps the length and leaves no space |
| Text.StripLeading | functions/handler.py:153 | the leading part of `strip` drops a prefix and leaves no whitespace in front |
| Text.StripLeadingCutsSpace | functions/handler.py:153 | everything the leading strip drops is whitespace |
| Text.StripTrailing | functions/handler.py:153 | the trailing part of `strip` drops a suffix and leaves no whitespace at the end |
| Text.StripTrailingCutsSpace | functions/handler.py:153 | everything the trailing strip drops is whitespace |
| Text.StripShape | functions/handler.py:153 | `strip` gives a slice of the text with no whitespace at either end |
| Text.StripTrimmed | functions/handler.py:153 | a text with no whitespace at either end is its own `strip` |
| Text.StripIdempotent | functions/handler.py:153 | stripping twice is stripping once |
| Text.Lower | slack_handlers/slack_events_handler.py:173-175 | lowering keeps the length and maps each character on its own |
| Text.NatToStringDigits | slack_handlers/slack_events_handler.py:182 | `str(n)` of a count is a non-empty run of decimal digits |
| Transport.Get | services/oauth_services/jira_oauth_service.py:60-63 | `json.get(key)` raises unless the body is an object, and gives the member iff the key is present |
| Transport.Field | services/oauth_services/jira_oauth_service.py:61 | a field is found iff its key is present |
| Transport.StringOf | services/oauth_services/jira_oauth_service.py:38 | a value reads as text iff it is present and a JSON string |
| Transport.IntOf | services/oauth_services/jira_oauth_service.py:63 | a value reads as a number iff it is present and a JSON number |
| Transport.JsonOf | services/oauth_services/jira_oauth_service.py:60 | `r.json()` succeeds iff the request got a reply with a parseable body, and gives that body |
| Transport.HttpClient.Send | services/oauth_services/jira_oauth_service.py:53-60 | a request is appended to the log of requests sent, and the reply is the one the world gives for it |
| Transport.SlackClient.Call | slack_handlers/slack_events_handler.py:187 | a Slack Web API call is appended to the log of calls made, and the reply is the one the workspace gives for it |

## Left out

- The Slack, HTTP and AWS plumbing: `slack_sdk`'s `WebClient`, `requests`, boto3 and Lambda invocation (functions/invoke.py, utils/aws.py). They are replaced by `Transport.SlackClient` and `Transport.HttpClient`, whose replies come from a response function, and by `Dynamo.DynamoUtils`, whose tables are maps.
- The Flask routes of functions/handler.py beyond the head of `jira_oauth` and `zoom_auth`: reading the code and decoding the `state`. Past that head, the routes call the OAuth services and the store, which are modelled separately; the redirect responses and `slack_auth` with services/oauth_services/slack_oauth_service.py are HTTP plumbing.
- The Lambda entry points `handle_mention`, `command_handler` and `handle_message`. They are modelled as their routing decision (`Mention.Route`, `Commands.Route`, `Message.Route`) and their reply texts. Posting each reply through `WebClient` and looking up the team's Slack token first are transport calls.
- functions/interaction.py: it walks the interactive payload and posts to `response_url`. Only its pass-through of the confirm button's value into incident creation is kept, as `SlackEventsHandler.ConfirmedBlankNameNumbered`.
- The structure-only formatters: help_formatter, no_incidents_formatter, close_incident_formatter, current_incidents_formatter, register_command_formatter, and register_command/jira.py and register_command/zoom.py. Their Block Kit output is a constant or a fixed layout with no decision in it. The unused copy of the Zoom OAuth logic in register_command/zoom.py is left out too.
- The one-line delegations of slack_handlers/slack_events_handler.py:85-97 and 112-122: `get_oncall`, `close_incident`, `create_ticket`, `create_call` and `get_call`. Each only calls the service member that models it. The today filter of `get_ongoing_incidents_from_today` is the one of `ListTodayOngoing`; the blocks it then builds come from the left-out formatters.
- The abstract base classes and the integration enum (domain/integrations/integration.py, services/integrated_service.py, services/ticket_service.py, services/call_service.py, utils/integration_enum.py). They are folded into the `Integrations.Integration` datatype and its type tag.
- Logging calls. They change no state the model can observe.
- Concurrency between independently dispatched Lambda invocations, such as two creations racing or two token refreshes where the last writer wins. One invocation is sequential and is modelled as such.
- DynamoDB's refusal of an empty string set in `ADD`/`DELETE`: the model treats an empty update as a no-op union or difference. DynamoDB string sets are unordered, but the model keeps them as sequences in insertion order. The order of a table query is left open: `QueryTeam` may return the rows in any order.
- DateTimeUtils.Parse: `strptime` also accepts one-digit fields and some extra whitespace. The model accepts only the 19-character layout the bot itself writes, and timestamps carry whole seconds only.
- Base64.Decode: `b64decode` without `validate` silently discards characters outside the alphabet. The model refuses them, so it is stricter on malformed `state` values and agrees on every value the bot produces.
- Text.Lower: Python's `str.lower` lowers every Unicode letter. The model lowers ASCII letters only, which is enough for the phrases the bot tests but not for arbitrary channel names.
- Handler.RemoveMentions: its contract says only that the text does not grow. What is removed is proved for the shapes in `RemoveMentionsAbsent`, `LeadingMentionRemoved` and `GreedyMentionSwallowsText`, not for every text.
- Message.Comment: its contract says only that the text does not grow. Which prefix is removed is proved by `UpperMarkerRemoved` and `LowerMarkerKept`.
- RegisterCommand.BuildStateParam: its contract gives only the shape of the Base64 text. That the text decodes back to the team and the user is `Handler.StateRoundTrip`.
- The second test for a missing channel id in `__create_channel`. It sits after a test that already returned on the same condition, so it can never fire.
- DateTimeUtils.Format: years before 1000 are zero-padded to four digits. glibc's `%Y` writes them without padding, and `strptime`'s four-digit `%Y` would then refuse the text; the clock the bot reads never gives such a year.
- ZoomApiService.MeetingLinkFromReply: a 201 object reply without a string `join_url` gives the link "". Python stores `None` (or the raw non-string value) as the link, and the mention handler's `"call created: " + call.get_link()` at functions/mention.py:40 would then raise `TypeError`, while `Mention.CallReply` answers "call created: ".
- JiraOauthService.TokenFields: `Transport.Json` has no floating-point numbers, so a reply whose `expires_in` is a float such as `3600.0`, which Python adds to the clock, fails in the model. The same holds for `ZoomOauthService`'s token reply.
- JiraOauthService.JiraIdFromReply: a first entry whose "name" is a non-empty value that is not a string (a number, say) is refused. Python returns it as the Jira id unchanged.
- JiraApiService.TicketLinkFromReply: a 201 reply whose "key" is not a string (a number, say) fails. Python formats any value into the link with an f-string.
- Python's `re` beyond the patterns used here. The three patterns are modelled by hand as scans: the mention pattern for `re.sub`, the two capture patterns for `re.findall` and `re.search`, and the anchored `log:` prefix.
