# cf-notify notifier core, in Dafny

cf-notify is a Lambda function. It turns CloudFormation stack events, delivered through SNS,
into Slack messages. A scheduled `aws.events` invocation makes it list the stacks that have no
notification targets instead. This project models the handler in `src/lambda_notify.py` and
proves properties of the model:

- **Routing.** `Notifier.LambdaHandler` picks the audit path or the stack path from the event
  source. It lays the partial message over the default channel, icon and user name. It
  delivers the result unless DEBUG is set to a non-empty value.
- **Parsing the SNS body.** `Notification.ParseTokens` builds the key/value dictionary from
  `KEY=VALUE` tokens. Each token is split at its first `=`. A later token with the same key
  wins. A token with no `=` is an error.
- **The stack message.** `Notifier.GetStackUpdateMessage` composes the message. It has:
  - the bold stack name and status, and a console link;
  - the primary attachment, which holds the status colour and the ARN, user and timestamp
    fields;
  - a resource breakdown for CREATE_COMPLETE and DELETE_IN_PROGRESS;
  - a channel, set only when the channel lookup gives a non-empty name.
- **The console link.** `ConsoleLink.GetStackRegion` scans the region out of the stack ARN
  with the pattern `arn:aws:cloudformation:[a-z]{2}-[a-z]{4,9}-[1-2]`. `GetStackUrl` puts
  that region into the console URL.
- **The breakdown.** `ResourceTally` sorts the resource types, groups them and counts each
  group. The result is a dictionary whose counts are the number of occurrences of each type.
- **The audit.** `Audit` keeps, in their original order, the stacks that have no notification
  targets. It names each of them, quoted, after a fixed prefix.
- **User lookup.** `Principals.ResolveUserIdToName` is the loop that finds the first user with
  the given id. It falls back to `unknown (<id>)`.

Module layout:

| file | module | role |
|---|---|---|
| results.dfy | `Results` | `Option`, `Result` and the error values (KeyError, a malformed token, a missing record, an unknown stack, an ARN without a region) |
| text.dfy | `Text` | substring containment, `', '.join`, decimal rendering of a count |
| stack_status.dfy | `StackStatus` | `STATUS_COLORS`, `DESCRIBE_STACK_STATUS` and the colour lookup |
| notification.dfy | `Notification` | parsing the tokens of the SNS body |
| console_link.dfy | `ConsoleLink` | region scanner and console URL |
| slack.dfy | `Slack` | message, attachment and field values |
| resource_tally.dfy | `ResourceTally` | sort, `groupby`, the count dictionary, the breakdown attachment |
| audit.dfy | `Audit` | stacks without notification targets and the audit text |
| principals.dfy | `Principals` | user id to user name |
| notifier.dfy | `Notifier` | configuration, channel choice, the stack message, routing |

The answers of the cloud APIs are passed in as a `Cloud` value. These are the stack list, each
stack's resources and the user list. The settings CHANNEL and DEBUG, and the optional channel
overrides, are passed in as a `Config` value. `urllib.urlencode` is passed in as a function
parameter. An exception of the modelled code becomes a `Failure`: a KeyError, a malformed token,
a missing record, an unknown stack or an ARN without a region. No message is produced in that
case and nothing is posted. The cloud calls themselves and posting are not modelled (see "Left
out").

## Model

| member | source | states |
|---|---|---|
| StackStatus.ColorFor | src/lambda_notify.py:17-34 | The colour is always one of good, warning, danger or `#000000`. It is the table's colour for a listed status. It is `#000000` exactly when the status is not in the table. |
| Notification.SplitOnce | src/lambda_notify.py:69 | Splitting fails exactly when the token has no `=`. Otherwise the token is key, `=`, value, and the key holds no `=`, so the split is at the first `=`. |
| Notification.SplitOnceJoined | src/lambda_notify.py:69 | Round trip: splitting `key=value` with an `=`-free key gives back that key and value, even when the value contains `=`. |
| Notification.ExampleValueWithEquals | src/lambda_notify.py:69 | `Tags=env=prod` splits into `Tags` and `env=prod`. |
| Notification.ParseTokens | src/lambda_notify.py:69 | Building the dictionary succeeds exactly when every token holds an `=`. |
| Notification.ParseFailsAtFirstMalformed | src/lambda_notify.py:69 | The first token with no `=` is the one reported. |
| Notification.ParseLastTokenWins | src/lambda_notify.py:69 | Every parsed key is present, and its value comes from the last token with that key. |
| Notification.ParseKeysFromTokens | src/lambda_notify.py:69 | Every key of the dictionary is the key of some token. |
| ConsoleLink.ScanRegion | src/lambda_notify.py:174 | Soundness of the region part of the pattern: a region it returns sits at the scan position and has the pattern's shape. |
| ConsoleLink.ScanComplete | src/lambda_notify.py:174 | Completeness of the region part: a region-shaped string at the scan position is returned exactly, so the greedy letter run does not miss a match. |
| ConsoleLink.GetStackRegion | src/lambda_notify.py:173-175 | Soundness: a region it returns follows the ARN prefix in the stack id, has length 9 to 14 and has the shape of the pattern. |
| ConsoleLink.RegionComplete | src/lambda_notify.py:173-175 | Completeness: when the stack id starts with the prefix and a region of that shape, the scanner returns exactly that region. |
| ConsoleLink.ExampleRegion | src/lambda_notify.py:173-175 | `arn:aws:cloudformation:us-east-1:…` yields `us-east-1`. |
| ConsoleLink.ExampleZoneThreeRejected | src/lambda_notify.py:174 | A zone digit other than 1 or 2 is not matched: `arn:aws:cloudformation:eu-west-3:…` yields no region. |
| ConsoleLink.StackQuery | src/lambda_notify.py:180-184 | The query has exactly the keys filter, tab and stackId. Their values are `active`, `events` and the stack id itself. |
| ConsoleLink.GetStackUrl | src/lambda_notify.py:177-187 | A URL exists exactly when a region is found. Otherwise the error names the stack id. |
| ConsoleLink.StackUrlFailsOnlyWithoutRegion | src/lambda_notify.py:177-178 | Building the URL fails exactly when no string of region shape follows the ARN prefix. |
| ConsoleLink.StackUrlCarriesRegion | src/lambda_notify.py:186-187 | The host's first label is the scanned region. The URL carries `?region=<region>#/stacks?`. It ends with `#/stacks?` followed by the encoded query of the stack id. |
| ResourceTally.SortSortedPermutation | src/lambda_notify.py:160 | Sorting the types gives an ordered sequence with the same multiset of elements. |
| ResourceTally.InsertSorted | src/lambda_notify.py:160 | Inserting into an ordered sequence keeps it ordered and adds exactly that element. |
| ResourceTally.SortedIsGrouped | src/lambda_notify.py:160-161 | In a sorted sequence, equal types are adjacent, which is what `groupby` needs to give one run per type. |
| ResourceTally.GroupBy | src/lambda_notify.py:161 | There are no runs exactly when the input is empty. The first run's key is the first element. |
| ResourceTally.GroupByFirstRun | src/lambda_notify.py:161-162 | The first run covers exactly the leading equal elements, and its count is positive. |
| ResourceTally.GroupBySize | src/lambda_notify.py:161-162 | The run counts add up to the length of the input. |
| ResourceTally.GroupedTally | src/lambda_notify.py:161-162 | On a sequence whose equal elements are adjacent, the dictionary built from the runs is the occurrence count of each element. It has one entry per run. |
| ResourceTally.TallyCounts | src/lambda_notify.py:157-162 | The count dictionary's keys are exactly the resource types present. Each value is that type's number of occurrences and is positive. |
| ResourceTally.TallyOrderIndependent | src/lambda_notify.py:160-162 | Two resource lists whose types form the same multiset (in particular, any reordering of one list) give the same count dictionary. |
| ResourceTally.TallyTotal | src/lambda_notify.py:162-164 | The counts sum to the number of resources, and there is one entry per group. |
| ResourceTally.GetStackSummaryAttachment | src/lambda_notify.py:164-168 | The breakdown's fallback and title are the same text. |
| ResourceTally.SummaryAttachmentReportsTally | src/lambda_notify.py:164-171 | Each field is `Type <t>` / `Total <n>` for exactly the entries of the count dictionary. The title names the total number of resources, and that number reads back as the count. |
| Text.NatToString | src/lambda_notify.py:164 | The rendering is a non-empty string of digits, a single digit exactly below ten, with no leading zero except for zero itself. |
| Text.NatToStringRoundTrip | src/lambda_notify.py:164 | A count rendered in decimal reads back as the same number. |
| Text.JoinContainsEach | src/lambda_notify.py:83 | Joining with a separator keeps every part in the result. |
| Text.JoinConcat | src/lambda_notify.py:83 | Joining two non-empty lists of parts is joining each, with the separator between. |
| Audit.GetStacksWithoutNotificationArns | src/lambda_notify.py:92-96 | It keeps exactly the listed stacks with no notification targets, none more and none fewer. It is empty exactly when every stack has a target. |
| Audit.FilterKeepsOrder | src/lambda_notify.py:96 | The filter distributes over concatenation, so the kept stacks stay in their original order. |
| Audit.QuotedNames | src/lambda_notify.py:83 | One quoted name per stack, in order. |
| Audit.ReportStacksWithoutNotifications | src/lambda_notify.py:77-84 | The report is empty exactly when every stack is monitored. Otherwise it has only a text key, and the text starts with the fixed prefix. |
| Audit.AuditNamesEachStack | src/lambda_notify.py:81-84 | Every unmonitored stack's name appears in the report text between double quotes. |
| Audit.AuditSingleStack | src/lambda_notify.py:79-84 | With exactly one unmonitored stack, wherever it sits among monitored ones, the text is the prefix followed by that stack's quoted name. |
| Audit.AuditTextConcat | src/lambda_notify.py:81-83 | When two lists each have an unmonitored stack, the text for their concatenation is the first list's text, then `, `, then the second list's names. With `AuditSingleStack`, this fixes the text for any list: the names in list order, separated by `, `, and no others. |
| Audit.QuotedNamesConcat | src/lambda_notify.py:83 | Quoting distributes over concatenation. |
| Audit.JoinQuotedConcat | src/lambda_notify.py:83 | The joined names of two non-empty stack lists are the first list's joined names, then `, `, then the second list's. |
| Principals.UserNameFirstMatch | src/lambda_notify.py:192-194 | When users match the id, the name is that of the first match. |
| Principals.UserNameNoMatch | src/lambda_notify.py:195 | With no matching user, the name is `unknown (<id>)`. |
| Principals.ResolveUserIdToName | src/lambda_notify.py:189-195 | The loop with early return computes the first-match name. |
| Notifier.StatusTextNames | src/lambda_notify.py:109-110 | The main line contains the stack name in bold and the status in bold. |
| Notifier.GetStackUpdateAttachment | src/lambda_notify.py:132-155 | It succeeds exactly when StackId, PrincipalId, Timestamp and ResourceStatus are present. It then gives the status colour and the ARN, first-match user and timestamp fields, with user and timestamp short. A failure is a KeyError. |
| Notifier.GetStackUpdateMessage | src/lambda_notify.py:98-119 | It succeeds exactly when the keys are present, a breakdown due has its stack's resources, and the ARN has a region. The message then has the text. It has two attachments for CREATE_COMPLETE and DELETE_IN_PROGRESS and one otherwise, the primary first and the breakdown second. It has `channel` exactly when `Notifier.GetChannel` for the stack name gives a non-empty name: the stack's override when the override table has one, otherwise CHANNEL. An unknown stack and a region-less ARN fail with their own errors. If StackId, PrincipalId, Timestamp or ResourceStatus is missing, the result is a KeyError (`MissingKey`). A missing StackName is reported as `MissingKey("StackName")` whenever the source reaches that read first: when a breakdown is due, or when the ARN has a region. |
| Notifier.ReportStackUpdate | src/lambda_notify.py:66-75 | No record is an error. A parse failure or a missing ResourceType propagates. A resource other than the stack itself gives an empty message. Otherwise it is the stack message, whose keys lie within text, attachments and channel. |
| Notifier.Defaults | src/lambda_notify.py:52-56 | The defaults have exactly the keys channel, icon_emoji and username. |
| Notifier.OverlayKeepsDisplay | src/lambda_notify.py:52-57 | Overlaying a partial message that sets no display key keeps the channel key, the `:cloud:` icon and the `cf-bot` name. |
| Notifier.LambdaHandler | src/lambda_notify.py:42-64 | A scheduled event gives the defaults overlaid with the audit report. Any other event gives the defaults overlaid with the stack report, or that report's error. The default channel is `get_channel()` without a stack name (`Notifier.GetChannel`). Every message has a channel key, the icon and the user name. It is delivered exactly when it exists and DEBUG is unset or empty (`Notifier.IsDebugging`). |

## Left out

- The AWS calls (`describe_stacks`, `describe_stack_resources`, `list_users`) are not made. Their answers are the `Cloud` parameter. In the source, a failing call raises and nothing is posted: a missing permission, throttling or a network error. In the model every call has an answer. The only call failure modelled is a stack name without listed resources (`UnknownStack`). Only a single page of each answer exists in the model, as in the source, which does not paginate.
- `send_slack_message` is not modelled: reading WEBHOOK, the JSON encoding and the HTTP POST. The model only says whether the message would be posted (`delivered`). In the source, an unset WEBHOOK or a failed POST raises after the message is composed, so `lambda_handler` raises and returns nothing. The model still returns the message, with `delivered` set.
- Reading CHANNEL and DEBUG from `os.environ`, and importing the optional `slack` module, become the `Config` value. WEBHOOK is not part of `Config`; it is only read when posting. An absent `slack` module and one without `CUSTOM_CHANNELS` are both `customChannels == None`. The overrides are taken to be strings.
- `shlex.split` is not modelled. A record arrives as its list of tokens, after shell-style splitting.
- `urllib.urlencode` is a function parameter. Its output is not constrained.
- The field order of the breakdown follows Python 2 dictionary iteration order. The model keeps its fields as a set.
- The debug `print` statements are left out. The `context` argument is unused in the source and is left out.
- Exceptions are not distinguished by Python type. Each becomes an `Error` value: a KeyError for a missing key, a malformed token, a missing record, an unknown stack name, or an ARN without a region.
- Notifier.GetStackUpdateMessage: when several of StackId, PrincipalId, Timestamp and ResourceStatus are missing, the contract says the error is a `MissingKey` but not which key. The body reads them in the source's order, StackId first. Two other cases are also not pinned: a missing StackName when no breakdown is due and the ARN has no region, and a missing key together with other failures.
- An event with no `Records` key and one with an empty list are both "no record" (`records == []`). Fields of the SNS envelope other than the message body are not modelled.
- The stack message's channel rule follows the code's `if channel:`, so an unset or empty channel name leaves the key off.
- The default message is posted with no text in two cases, because the code does so. One is the scheduled path when every stack has a notification target. The other is a notification about a resource other than the stack itself, where `report_stack_update` returns `{}`. `Notifier.LambdaHandler` states both as the overlay of an empty report, delivered unless debugging.
- `StackStatus.ColorFor` states the table and its default. No separate naming rule is proved over the sixteen status names (failed to danger, rollback to warning, the rest to good).
- The region scanner follows the code's fixed `arn:aws:` partition and its zone digits 1 and 2. ARNs in other partitions, and regions such as `eu-west-3`, make the URL fail.
