# AAD diagnostic setting: log codec and write validation

A Dafny model of the logic inside the `azurerm_monitor_aad_diagnostic_setting`
resource of the AzureRM Terraform provider. The resource routes Azure Active
Directory audit logs to an event hub, a Log Analytics workspace or a storage
account. The model covers four parts:

- the expand/flatten codec between the configured `log` / `enabled_log` blocks
  and the API's `LogSettings` records (`LogSettingsCodec`);
- the choice, in Create and Update, of the log list to send and the refusal of
  a write with no enabled log (`WriteValidation`);
- the assembly of the destination fields of the payload, with the Read-side
  destination mapping as its partner (`Payload`);
- the `eventhub_name` pattern, as a term-by-term reading of the regular
  expression and an explicit length/character check (`EventHubName`).

Go pointers and nil interface values are `Option`s. Slices are `seq`s. The
loops of the Go functions are `method`s with loop invariants. Each method is
proved equal to a specification function (`ExpandedLogs`, `ExpandedEnabledLogs`,
`FlattenedLogs`, `FlattenedEnabledLogs`, `CreateDecision`, `UpdateDecision`),
and the lemmas state the properties of those functions. All four codec
functions append zero or one result per input element. They are specified
through one generic `Seqs.FlatMap`, whose append, membership and element-wise
lemmas are proved once.

Some inputs are taken as parameters:

- the 4.0 feature flag (`features.FourPointOhBeta()`);
- the `HasChange` results;
- the remote entry's logs from `client.Get`;
- ID normalisation during Read (`canonical`).

A configured block list counts as given (`d.GetOk`) when it is non-empty.

Points where the model follows the code closely:

- `expandMonitorAADDiagnosticsSettingsLogs` reads `retention_policy[0]` as a map
  before testing the list (lines 468-469). An empty list or a nil first element
  therefore panics, and the `continue` after the test can never run. The model
  records this as the precondition `ShapedLogs` and does not fix it: the test
  stays in `ExpandLogs` after the read, where it can never skip.
  `ExpandedLogsPresent` shows that a list with no nil entries yields exactly
  one result per entry.
- `int32(retentionDays)` is modelled as Go's truncating conversion (`Int32Of`).
  The round trips require the days to be within the int32 range.
- The stated intent is that every write without an enabled log entry is
  refused. The code is looser, and the model follows the code. Create accepts a
  non-empty `enabled_log` even when the expansion drops every entry (each one
  nil, or with an empty or nil-headed retention list), and then sends an empty
  list (`CreateSends`). Update always accepts a changed `enabled_log`, even an
  empty one (`UpdateSends`). `AcceptedWithoutEnabledEntry` gives one concrete
  input of each kind.

## Model

| member | source | states |
|---|---|---|
| `LogSettingsCodec.Int32Of` | internal/services/monitor/monitor_aad_diagnostic_setting_resource.go:479 | the int32 conversion is congruent to its input modulo 2^32 and is the identity within the int32 range |
| `LogSettingsCodec.ExpandLogs` | internal/services/monitor/monitor_aad_diagnostic_setting_resource.go:456-488 | the loop builds exactly `ExpandedLogs(input)`, for inputs whose present entries have a non-nil first retention policy |
| `LogSettingsCodec.ExpandEnabledLogs` | internal/services/monitor/monitor_aad_diagnostic_setting_resource.go:490-520 | the loop builds exactly `ExpandedEnabledLogs(input)`, on every input |
| `LogSettingsCodec.FlattenLogs` | internal/services/monitor/monitor_aad_diagnostic_setting_resource.go:522-545 | the loop builds exactly `FlattenedLogs(input)` |
| `LogSettingsCodec.FlattenEnabledLogs` | internal/services/monitor/monitor_aad_diagnostic_setting_resource.go:547-574 | the loop builds exactly `FlattenedEnabledLogs(input)` |
| `LogSettingsCodec.ExpandedEnabledLogsAppend` | internal/services/monitor/monitor_aad_diagnostic_setting_resource.go:493-517 | the `enabled_log` expansion keeps input order: the expansion of a concatenation is the concatenation of the expansions |
| `LogSettingsCodec.ExpandedEnabledLogsMembers` | internal/services/monitor/monitor_aad_diagnostic_setting_resource.go:493-516 | an API entry is produced iff some non-nil input with a non-nil first retention policy has its category, Enabled = true, retention days (int32) and retention flag; nil entries and empty or nil-headed retention lists are skipped |
| `LogSettingsCodec.ExpandedEnabledLogsAllEnabled` | internal/services/monitor/monitor_aad_diagnostic_setting_resource.go:507-513 | every entry the `enabled_log` expansion yields has Enabled = Some(true) and a retention policy |
| `LogSettingsCodec.ExpandedLogsAppend` | internal/services/monitor/monitor_aad_diagnostic_setting_resource.go:459-485 | the `log` expansion keeps input order and is defined on a concatenation of well-shaped inputs |
| `LogSettingsCodec.ExpandedLogsPresent` | internal/services/monitor/monitor_aad_diagnostic_setting_resource.go:463-484 | without nil entries the `log` expansion yields exactly one entry per input, in order, with its category, its own enabled flag and its first retention policy; the skip after the indexing never fires |
| `LogSettingsCodec.FlattenedLogsShape` | internal/services/monitor/monitor_aad_diagnostic_setting_resource.go:522-545 | nil input gives an empty list; otherwise one block per entry, in order, same category, enabled = (Enabled is set and true), a one-element retention list exactly when the policy is present, nil days/enabled read as 0/false |
| `LogSettingsCodec.FlattenedEnabledLogsAppend` | internal/services/monitor/monitor_aad_diagnostic_setting_resource.go:553-571 | flattening for `enabled_log` keeps input order |
| `LogSettingsCodec.FlattenedEnabledLogsMembers` | internal/services/monitor/monitor_aad_diagnostic_setting_resource.go:553-571 | a block is emitted iff some API entry whose Enabled is set and true (nil counts as false) has its category and retention policy; blocks have no enabled key |
| `LogSettingsCodec.EnabledLogsRoundTrip` | internal/services/monitor/monitor_aad_diagnostic_setting_resource.go:490-574 | for `enabled_log` configs without nil entries, each with exactly one non-nil retention policy whose days fit int32, flatten(expand(c)) == c |
| `LogSettingsCodec.LogsRoundTrip` | internal/services/monitor/monitor_aad_diagnostic_setting_resource.go:456-545 | for `log` configs of the same shape, flatten(expand(c)) == c |
| `LogSettingsCodec.ApiEnabledLogsRoundTrip` | internal/services/monitor/monitor_aad_diagnostic_setting_resource.go:490-574 | for API lists whose entries are enabled and have every retention field set, expand(flatten(s)) == s |
| `LogSettingsCodec.ApiLogsRoundTrip` | internal/services/monitor/monitor_aad_diagnostic_setting_resource.go:456-545 | for API lists whose Enabled and retention fields are all set, the flattened `log` blocks can be expanded and expand(flatten(s)) == s |
| `WriteValidation.AnyEnabled` | internal/services/monitor/monitor_aad_diagnostic_setting_resource.go:203-208 | the scan with `break` returns true iff some entry has Enabled set and true |
| `WriteValidation.CreateLogs` | internal/services/monitor/monitor_aad_diagnostic_setting_resource.go:194-219 | the flag-updating code of Create decides exactly `CreateDecision`: a non-empty `enabled_log` wins; otherwise a non-empty `log` (only without the 4.0 flag) with an enabled entry; otherwise refusal |
| `WriteValidation.UpdateLogs` | internal/services/monitor/monitor_aad_diagnostic_setting_resource.go:269-304 | the flag-updating code of Update decides exactly `UpdateDecision` |
| `WriteValidation.ExpandedLogsEnabled` | internal/services/monitor/monitor_aad_diagnostic_setting_resource.go:201-208 | the `log` expansion has an enabled entry iff some configured `log` entry is enabled |
| `WriteValidation.CreateRejects` | internal/services/monitor/monitor_aad_diagnostic_setting_resource.go:194-219 | Create refuses iff `enabled_log` is empty and either the 4.0 flag is on or no configured `log` entry is enabled |
| `WriteValidation.CreateSends` | internal/services/monitor/monitor_aad_diagnostic_setting_resource.go:199-215 | with a non-empty `enabled_log` Create sends its expansion, replacing any `log` expansion; what it sends always has an enabled entry, unless every `enabled_log` entry was dropped and the list is empty |
| `WriteValidation.UpdateRejects` | internal/services/monitor/monitor_aad_diagnostic_setting_resource.go:269-304 | Update refuses iff `enabled_log` did not change and either the changed `log` has no enabled entry, or nothing changed and the remote logs are nil or have no enabled entry |
| `WriteValidation.UpdateSends` | internal/services/monitor/monitor_aad_diagnostic_setting_resource.go:273-300 | a changed `enabled_log` is always accepted: with a changed `log` (no 4.0 flag) the `log` expansion followed by the `enabled_log` expansion is sent, otherwise the `enabled_log` expansion alone; with only `log` changed, its expansion is sent; with nothing changed, the remote list; without a changed `enabled_log` what is sent has an enabled entry |
| `WriteValidation.AcceptedWithoutEnabledEntry` | internal/services/monitor/monitor_aad_diagnostic_setting_resource.go:194-215 | concrete writes the check lets through with no enabled entry sent: Create with `enabled_log` = [nil] and Update with a changed, empty `enabled_log` both send the empty list |
| `Payload.BuildPayload` | internal/services/monitor/monitor_aad_diagnostic_setting_resource.go:221-242 | Logs is the selected list; WorkspaceID and StorageAccountID are set iff their string is non-empty; EventHubAuthorizationRuleID and EventHubName are set iff the rule ID is non-empty, with the configured values |
| `Payload.DestinationsRoundTrip` | internal/services/monitor/monitor_aad_diagnostic_setting_resource.go:359-391 | for IDs that are unset or already canonical, Read gives back the configured destinations iff an event hub name is only configured together with an authorization rule |
| `EventHubName.MatchesRepeatIff` | internal/services/monitor/monitor_aad_diagnostic_setting_resource.go:59 | `[-._a-zA-Z0-9]{0,n}` matches a string iff it has at most n characters, each a letter, digit, '-', '.' or '_' |
| `EventHubName.ValidEventHubNameMatchesPattern` | internal/services/monitor/monitor_aad_diagnostic_setting_resource.go:58-61 | the pattern accepts a name iff it has 1 to 50 characters, begins and ends with an ASCII letter or digit, and has only letters, digits, '-', '.' and '_' |

## Left out

- Azure client calls (`Get`, `CreateOrUpdate`, `Delete`) and not-found detection: foreign I/O. The remote logs enter as a parameter of `UpdateDecision`, and the write itself is not modelled.
- The import-exists check in Create, ID parsing of the resource's own ID, timeouts and logging: framework plumbing.
- Delete and its wait for the setting to disappear (15-second polling, five consecutive not-found answers): that loop belongs to the plugin SDK's state-change helper, which is not part of this model. Its refresh function only classifies a Get result.
- The schema declaration: `ExactlyOneOf`, `AtLeastOneOf`, `MaxItems`, defaults, deprecation and the resource-ID validators are enforced by the framework. Only the `eventhub_name` pattern is modelled.
- `Payload.DestinationsRoundTrip`: ID parsing in Read is taken as a given function `canonical`, and its errors are not modelled.
- The difference between a nil and an empty Go slice for the sent `logs` (serialised as null versus `[]`) is not modelled. Both are the empty sequence.
- Read's handling of the `log` / `enabled_log` fields is modelled only through the two flatten functions. The `d.Set` calls and their errors are framework plumbing.
