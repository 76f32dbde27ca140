# Command pipe encoder

This project models `CommandPipe`, the class of Icinga Web that turns
monitoring intents into external commands. Intents include acknowledging a
problem, submitting a passive check result, scheduling a check or a downtime,
removing comments, toggling monitoring properties and sending a custom
notification. Each command is one semicolon-delimited line of the
Nagios/Icinga external-command file format. The lines go to a write-only
transport, either the local command pipe or a remote one reached over ssh.

The model has five modules:

- `Strings`: the text layer. It has the `;` separator, joining and
  splitting fields, and the decimal rendering of integers that PHP string
  interpolation performs, together with its parse-back. It also has
  `Sprintf`, which covers the subset of `sprintf` the encoder relies on: in-order
  `%s` substitution and `%%`.
- `Bits`: the bitwise OR on naturals that combines notification options.
- `Monitoring`: the values the encoder reads. These are the monitoring
  object (`Obj`: host name, plus an optional service description, comment
  id and downtime id), the object type and its classification rule, the instance
  configuration and the transport it selects, and the format providers
  (comment, acknowledgement, downtime, property modifier), modelled as
  templates.
- `Encoding`: one pure function per command family. Each gives the line
  sent for one object. `Intent` names a family together with the call's
  parameters. `Lines(intent, objects)` is the whole sequence of lines a call
  sends, one per object in input order; `PropertyLines` plays that role for
  property changes.
- `Commandpipe`: the class `CommandPipe`. Its field `sent` holds every line
  handed to the transport so far. Each public operation is a method with
  the loop of the PHP code: it rebuilds the line step by step as the PHP
  source does, then sends it. A per-object operation proves
  `sent == old(sent) + Lines(...)`, a property change (`SetMonitoringProperties`
  and its fourteen toggles) proves `sent == old(sent) + PropertyLines(...)`,
  and the three global commands prove that exactly their one literal line is
  appended.
- `Protocol`: what the lines mean. It gives the field table of every family
  that writes its own line, and proves that splitting a sent line at `;`
  gives those fields back when the caller's texts contain no `;`. The
  read-back gives what the state, the check time and the options value in
  a sent line parse back to. The other promises of the individual
  operations (perfdata truthiness, id priority, the start-time field, the
  order of property lines) are proved on the line functions, the field
  tables and the concatenation of per-object blocks.

The current time (`time()`) is a parameter `now` of the check-scheduling
methods. The input of `acknowledge` is either a plain comment or an
acknowledgement (`AcknowledgementOrComment`), which stands for its `is_a`
test; the `Acknowledgement` constructor that wraps a plain comment is a
parameter `wrap`. The property modifier's template table is a parameter
`catalog`.

Three behaviours of the code are modelled as they are:

- `isset` makes any set service description, even `""`, a service;
- perfdata is appended only when it is PHP-truthy, so `"0"` is not;
- an empty object list sends nothing.

Lines are modelled as the code writes them. This includes the service
forms of comment removal, `DEL_SERVICE_COMMENT` and `DEL_ALL_SERVICE_COMMENTS`,
which the external-command list of Nagios and Icinga names
`DEL_SVC_COMMENT` and `DEL_ALL_SVC_COMMENTS`.

## Model

| member | source | states |
|---|---|---|
| Monitoring.ObjectTypeOf | library/Icinga/Protocol/Commandpipe/CommandPipe.php:323-330 | an object is classified as host or service only, and as a service exactly when its service description is set |
| Monitoring.TypeName | library/Icinga/Protocol/Commandpipe/CommandPipe.php:61-76 | the object type constants are texts without the separator |
| Monitoring.TransportFor | library/Icinga/Protocol/Commandpipe/CommandPipe.php:118-127 | the transport is remote (ssh) exactly when the configuration has a host, and its endpoint is the configuration |
| Monitoring.AsAcknowledgement | library/Icinga/Protocol/Commandpipe/CommandPipe.php:151-153 | an acknowledgement is used as given, and a plain comment is first wrapped into an acknowledgement |
| Monitoring.Templates | library/Icinga/Protocol/Commandpipe/CommandPipe.php:395-396 | a property modifier gives one template per flag, in flag order, each chosen for the object's type |
| Commandpipe.CommandPipe.constructor | library/Icinga/Protocol/Commandpipe/CommandPipe.php:104-108 | a new pipe has the transport its configuration selects, the configured name, and has sent nothing |
| Commandpipe.CommandPipe.Send | library/Icinga/Protocol/Commandpipe/CommandPipe.php:136-139 | sending appends exactly one line to what the transport has received |
| Commandpipe.CommandPipe.GetTransport | library/Icinga/Protocol/Commandpipe/CommandPipe.php:831-834 | returns the configured transport |
| Commandpipe.CommandPipe.Acknowledge | library/Icinga/Protocol/Commandpipe/CommandPipe.php:149-164 | sends, after the earlier lines, one filled acknowledgement template per object, in input order |
| Commandpipe.CommandPipe.RemoveAcknowledge | library/Icinga/Protocol/Commandpipe/CommandPipe.php:171-180 | sends one acknowledgement removal per object, in input order |
| Commandpipe.CommandPipe.SubmitCheckResult | library/Icinga/Protocol/Commandpipe/CommandPipe.php:190-202 | sends one check-result line per object, all carrying the same state and the same output, which has the pipe sign and the perfdata appended only when perfdata is truthy |
| Commandpipe.CommandPipe.ScheduleForcedCheck | library/Icinga/Protocol/Commandpipe/CommandPipe.php:211-224 | sends one forced check line per object, at `time`, or at `now` when `time` is falsy |
| Commandpipe.CommandPipe.ScheduleCheck | library/Icinga/Protocol/Commandpipe/CommandPipe.php:233-246 | sends one check scheduling line per object, at `time`, or at `now` when `time` is falsy |
| Commandpipe.CommandPipe.AddComment | library/Icinga/Protocol/Commandpipe/CommandPipe.php:254-266 | sends one filled comment template per object, in input order |
| Commandpipe.CommandPipe.RemoveComment | library/Icinga/Protocol/Commandpipe/CommandPipe.php:274-297 | sends one comment removal per object: by id when the object has one, otherwise all comments of the host or service |
| Commandpipe.CommandPipe.EnableGlobalNotifications | library/Icinga/Protocol/Commandpipe/CommandPipe.php:303-306 | sends exactly `ENABLE_NOTIFICATIONS` |
| Commandpipe.CommandPipe.DisableGlobalNotifications | library/Icinga/Protocol/Commandpipe/CommandPipe.php:312-315 | sends exactly `DISABLE_NOTIFICATIONS` |
| Commandpipe.CommandPipe.ScheduleDowntime | library/Icinga/Protocol/Commandpipe/CommandPipe.php:338-350 | sends one filled downtime template per object, in input order |
| Commandpipe.CommandPipe.RemoveDowntime | library/Icinga/Protocol/Commandpipe/CommandPipe.php:358-375 | sends one downtime removal per object: by id when the object has one, otherwise by host name, with the service and a non-zero start time |
| Commandpipe.CommandPipe.RestartIcinga | library/Icinga/Protocol/Commandpipe/CommandPipe.php:381-384 | sends exactly `RESTART_PROCESS` |
| Commandpipe.CommandPipe.SetMonitoringProperties | library/Icinga/Protocol/Commandpipe/CommandPipe.php:392-404 | sends, for each object in turn, each of its type's templates in order, followed by `;host` and, for a service, `;service` |
| Commandpipe.CommandPipe.EnableActiveChecks | library/Icinga/Protocol/Commandpipe/CommandPipe.php:411-421 | is a property change with the single flag (active, enable) |
| Commandpipe.CommandPipe.DisableActiveChecks | library/Icinga/Protocol/Commandpipe/CommandPipe.php:428-438 | is a property change with the single flag (active, disable) |
| Commandpipe.CommandPipe.EnablePassiveChecks | library/Icinga/Protocol/Commandpipe/CommandPipe.php:445-455 | is a property change with the single flag (passive, enable) |
| Commandpipe.CommandPipe.DisablePassiveChecks | library/Icinga/Protocol/Commandpipe/CommandPipe.php:462-472 | is a property change with the single flag (passive, disable) |
| Commandpipe.CommandPipe.EnableFlappingDetection | library/Icinga/Protocol/Commandpipe/CommandPipe.php:480-490 | is a property change with the single flag (flapping, enable) |
| Commandpipe.CommandPipe.DisableFlappingDetection | library/Icinga/Protocol/Commandpipe/CommandPipe.php:498-508 | is a property change with the single flag (flapping, disable) |
| Commandpipe.CommandPipe.EnableNotifications | library/Icinga/Protocol/Commandpipe/CommandPipe.php:516-526 | is a property change with the single flag (notifications, enable) |
| Commandpipe.CommandPipe.DisableNotifications | library/Icinga/Protocol/Commandpipe/CommandPipe.php:534-544 | is a property change with the single flag (notifications, disable) |
| Commandpipe.CommandPipe.EnableFreshnessChecks | library/Icinga/Protocol/Commandpipe/CommandPipe.php:551-561 | is a property change with the single flag (freshness, enable) |
| Commandpipe.CommandPipe.DisableFreshnessChecks | library/Icinga/Protocol/Commandpipe/CommandPipe.php:568-578 | is a property change with the single flag (freshness, disable) |
| Commandpipe.CommandPipe.EnableEventHandler | library/Icinga/Protocol/Commandpipe/CommandPipe.php:585-595 | is a property change with the single flag (event handler, enable) |
| Commandpipe.CommandPipe.DisableEventHandler | library/Icinga/Protocol/Commandpipe/CommandPipe.php:602-612 | is a property change with the single flag (event handler, disable) |
| Commandpipe.CommandPipe.EnablePerfdata | library/Icinga/Protocol/Commandpipe/CommandPipe.php:619-629 | is a property change with the single flag (perfdata, enable) |
| Commandpipe.CommandPipe.DisablePerfdata | library/Icinga/Protocol/Commandpipe/CommandPipe.php:636-646 | is a property change with the single flag (perfdata, disable) |
| Commandpipe.CommandPipe.StartObsessing | library/Icinga/Protocol/Commandpipe/CommandPipe.php:679-690 | sends one `START_OBSESSING_OVER_{SVC/HOST}` line per object, in input order |
| Commandpipe.CommandPipe.StopObsessing | library/Icinga/Protocol/Commandpipe/CommandPipe.php:697-708 | sends one `STOP_OBSESSING_OVER_{SVC/HOST}` line per object, in input order |
| Commandpipe.NotificationOptions | library/Icinga/Protocol/Commandpipe/CommandPipe.php:719-723 | the options value is the first option OR-ed with every further one, in order |
| Commandpipe.CommandPipe.SendCustomNotification | library/Icinga/Protocol/Commandpipe/CommandPipe.php:717-737 | sends one custom notification per object, all carrying the same combined options value, the author and the comment |
| Commandpipe.CommandPipe.DisableNotificationsForServices | library/Icinga/Protocol/Commandpipe/CommandPipe.php:744-750 | sends `DISABLE_HOST_SVC_NOTIFICATIONS;host` per object, in input order |
| Commandpipe.CommandPipe.EnableNotificationsForServices | library/Icinga/Protocol/Commandpipe/CommandPipe.php:757-763 | sends `ENABLE_HOST_SVC_NOTIFICATIONS;host` per object, in input order |
| Commandpipe.CommandPipe.DisableActiveChecksWithChildren | library/Icinga/Protocol/Commandpipe/CommandPipe.php:770-776 | sends `DISABLE_HOST_SVC_CHECKS;host` per object, in input order |
| Commandpipe.CommandPipe.EnableActiveChecksWithChildren | library/Icinga/Protocol/Commandpipe/CommandPipe.php:783-789 | sends `ENABLE_HOST_SVC_CHECKS;host` per object, in input order |
| Commandpipe.CommandPipe.ResetAttributes | library/Icinga/Protocol/Commandpipe/CommandPipe.php:796-806 | sends one `CHANGE_{SVC/HOST}_MODATTR` line per object, ending in the mask `0` |
| Commandpipe.CommandPipe.DelayNotification | library/Icinga/Protocol/Commandpipe/CommandPipe.php:814-824 | sends one notification delay per object, all carrying the same delay |
| Encoding.Truthy | library/Icinga/Protocol/Commandpipe/CommandPipe.php:192 | PHP's truthiness of the perfdata string: true for every string except `""` and `"0"`; its use is stated by Protocol.PerfdataAppendedIffTruthy |
| Encoding.ScheduleBase | library/Icinga/Protocol/Commandpipe/CommandPipe.php:211-246 | the command name prefix of a check scheduling, `SCHEDULE_FORCED_` when forced and `SCHEDULE_` otherwise; stated by Protocol.ForcedDiffersOnlyInPrefix |
| Encoding.CommentType | library/Icinga/Protocol/Commandpipe/CommandPipe.php:279-289 | the comment family, `SERVICE_COMMENT` exactly when the object has a service description, `HOST_COMMENT` otherwise |
| Encoding.Line | library/Icinga/Protocol/Commandpipe/CommandPipe.php:171-824 | the line one operation sends for one object, by the operation's family; its fields are stated by Protocol.JoinFields and Protocol.LineFields |
| Monitoring.FormatString | library/Icinga/Protocol/Commandpipe/CommandPipe.php:157-161 | a provider's template for a host or a service; the service template has at most two `%s` slots and the host template at most one |
| Encoding.CheckOutput | library/Icinga/Protocol/Commandpipe/CommandPipe.php:192-194 | the output gets the pipe sign and the perfdata appended when perfdata is truthy and the output alone otherwise |
| Encoding.CheckTime | library/Icinga/Protocol/Commandpipe/CommandPipe.php:213-215 | a falsy (zero) time becomes the current time, and any other time is kept |
| Encoding.Lines | library/Icinga/Protocol/Commandpipe/CommandPipe.php:155-163 | a call sends exactly as many lines as it is given objects |
| Encoding.LinesAt | library/Icinga/Protocol/Commandpipe/CommandPipe.php:171-180 | line i of a call is the line for object i alone, given the call's parameters |
| Encoding.LinesAppend | library/Icinga/Protocol/Commandpipe/CommandPipe.php:171-180 | calling with `a + b` sends the lines for `a` followed by those for `b`: no reordering and no deduplication |
| Encoding.ConcatAt | library/Icinga/Protocol/Commandpipe/CommandPipe.php:394-403 | with a block of k lines per object, line `i * k + j` is line j of object i's block |
| Protocol.RemoveAcknowledgeJoin | library/Icinga/Protocol/Commandpipe/CommandPipe.php:174-178 | the acknowledgement removal is `REMOVE_{SVC/HOST}_ACKNOWLEDGEMENT`, the host, and for a service the service, joined by `;` |
| Protocol.SubmitCheckResultJoin | library/Icinga/Protocol/Commandpipe/CommandPipe.php:196-200 | the check result is `PROCESS_{SERVICE/HOST}_CHECK_RESULT;host[;service];state;output` |
| Protocol.ScheduleCheckJoin | library/Icinga/Protocol/Commandpipe/CommandPipe.php:216-223 | the check scheduling line is its command name, the host, the service for a service, and the time, joined by `;` |
| Protocol.RemoveCommentJoin | library/Icinga/Protocol/Commandpipe/CommandPipe.php:276-295 | the comment removal is `DEL_{SERVICE/HOST}_COMMENT;id` or `DEL_ALL_{SERVICE/HOST}_COMMENTS;host[;service]` |
| Protocol.RemoveDowntimeJoin | library/Icinga/Protocol/Commandpipe/CommandPipe.php:360-373 | the downtime removal is `DEL_{SVC/HOST}_DOWNTIME;id` or `DEL_DOWNTIME_BY_HOST_NAME;host[;service][;starttime]` |
| Protocol.ObsessJoin | library/Icinga/Protocol/Commandpipe/CommandPipe.php:681-689 | the obsessing line is `{START/STOP}_OBSESSING_OVER_{SVC/HOST};host[;service]` |
| Protocol.CustomNotificationJoin | library/Icinga/Protocol/Commandpipe/CommandPipe.php:725-735 | the custom notification is `SEND_CUSTOM_{SVC/HOST}_NOTIFICATION;host[;service];options;author;comment` |
| Protocol.HostWideJoin | library/Icinga/Protocol/Commandpipe/CommandPipe.php:744-789 | each host-wide command is its name and the host name, joined by `;` |
| Protocol.ResetAttributesJoin | library/Icinga/Protocol/Commandpipe/CommandPipe.php:798-805 | the reset is `CHANGE_{SVC/HOST}_MODATTR;host[;service];0` |
| Protocol.DelayNotificationJoin | library/Icinga/Protocol/Commandpipe/CommandPipe.php:816-823 | the delay is `DELAY_{SVC/HOST}_NOTIFICATION;host[;service];time` |
| Protocol.JoinFields | library/Icinga/Protocol/Commandpipe/CommandPipe.php:171-824 | every family that writes its own line sends its field table joined by `;`, and with clean caller texts no field contains `;` |
| Protocol.FieldsNonEmpty | library/Icinga/Protocol/Commandpipe/CommandPipe.php:171-824 | every such line has a command name and at least one argument |
| Protocol.LineFields | library/Icinga/Protocol/Commandpipe/CommandPipe.php:171-824 | splitting the line for one object at `;` gives back its field table, when the caller's texts are clean |
| Protocol.ReadBack | library/Icinga/Protocol/Commandpipe/CommandPipe.php:171-824 | splitting line i of a call gives object i's field table |
| Protocol.IdentityFields | library/Icinga/Protocol/Commandpipe/CommandPipe.php:323-330 | every family that addresses an object by name puts the host second and, for a service, the service third; after the command name, a host's fields are those of the same object as a service with the description removed |
| Protocol.HostFields | library/Icinga/Protocol/Commandpipe/CommandPipe.php:323-330 | after the command name, which differs between the host and service forms, a host's fields are the same object's service fields without the description, and the host name stays second |
| Protocol.SentCheckResult | library/Icinga/Protocol/Commandpipe/CommandPipe.php:190-202 | every sent check result ends in the state, which parses back to the number given, followed by the common output |
| Protocol.PerfdataAppendedIffTruthy | library/Icinga/Protocol/Commandpipe/CommandPipe.php:192-194 | perfdata changes the output if and only if it is truthy, so neither `""` nor `"0"` is appended |
| Protocol.SentCheckTime | library/Icinga/Protocol/Commandpipe/CommandPipe.php:211-246 | the last field of every check scheduling parses to `time`, or to `now` when `time` is 0 |
| Protocol.ForcedDiffersOnlyInPrefix | library/Icinga/Protocol/Commandpipe/CommandPipe.php:211-246 | a forced check line is the unforced one with `SCHEDULE_FORCED_` in place of `SCHEDULE_` |
| Protocol.ServiceCheckIgnoresChilds | library/Icinga/Protocol/Commandpipe/CommandPipe.php:218-219 | for a service, `withChilds` does not change the line |
| Protocol.CommentIdTakesPriority | library/Icinga/Protocol/Commandpipe/CommandPipe.php:276-283 | with a comment id, the line depends only on the id and the object type, not on the host or service names |
| Protocol.DowntimeIdTakesPriority | library/Icinga/Protocol/Commandpipe/CommandPipe.php:360-364 | with a downtime id, the line depends only on the id and the object type, whatever the start time |
| Protocol.DowntimeStarttimeField | library/Icinga/Protocol/Commandpipe/CommandPipe.php:365-371 | without an id, the start time adds a last field exactly when it is not 0 |
| Protocol.SentNotificationOptions | library/Icinga/Protocol/Commandpipe/CommandPipe.php:717-737 | every sent custom notification carries the OR of all options, parsed back as a number, followed by author and comment |
| Protocol.BroadcastForcedIsThree | library/Icinga/Protocol/Commandpipe/CommandPipe.php:83-90 | BROADCAST OR FORCED is 3, with the constants Commandpipe.NotifyBroadcast (1) and Commandpipe.NotifyForced (2) |
| Protocol.OptionsAtMostSeven | library/Icinga/Protocol/Commandpipe/CommandPipe.php:83-97 | the OR of any of the three option flags Commandpipe.NotifyBroadcast (1), Commandpipe.NotifyForced (2) and Commandpipe.NotifyIncrement (4), or an initial 0, is at most 7 |
| Protocol.FilledTemplateSlots | library/Icinga/Protocol/Commandpipe/CommandPipe.php:156-161 | a provider's host template gets the host name and its service template gets the host name and then the service, in slot order |
| Protocol.AcknowledgeWrapsComment | library/Icinga/Protocol/Commandpipe/CommandPipe.php:151-153 | acknowledging with a plain comment sends what acknowledging with its wrapping acknowledgement sends |
| Protocol.PropertyLinesCount | library/Icinga/Protocol/Commandpipe/CommandPipe.php:392-404 | a property change sends one line per object and flag |
| Protocol.PropertyLinesAt | library/Icinga/Protocol/Commandpipe/CommandPipe.php:392-404 | line `i * k + j`, k the number of flags, is object i's template for flag j, followed by `;host` and for a service `;service`: objects outside, templates inside |
| Protocol.SinglePropertyLines | library/Icinga/Protocol/Commandpipe/CommandPipe.php:411-646 | each single-property toggle sends exactly one line per object, in input order |
| Encoding.FilledTemplate | library/Icinga/Protocol/Commandpipe/CommandPipe.php:155-163 | the line of a provider-templated family: the host template filled with the host name, or the service template filled with host name and service; its slots are stated by Protocol.FilledTemplateSlots |
| Encoding.RemoveAcknowledgeLine | library/Icinga/Protocol/Commandpipe/CommandPipe.php:174-178 | the acknowledgement removal for one object; its fields are stated by Protocol.RemoveAcknowledgeJoin |
| Encoding.SubmitCheckResultLine | library/Icinga/Protocol/Commandpipe/CommandPipe.php:196-200 | the passive check result for one object; its fields are stated by Protocol.SubmitCheckResultJoin |
| Encoding.ScheduleCheckLine | library/Icinga/Protocol/Commandpipe/CommandPipe.php:216-223 | the check scheduling for one object, with the forced prefix when forced and the with-children form only for hosts; stated by Protocol.ScheduleCheckJoin |
| Encoding.RemoveCommentLine | library/Icinga/Protocol/Commandpipe/CommandPipe.php:276-295 | the comment removal for one object, by id first; stated by Protocol.RemoveCommentJoin |
| Encoding.RemoveDowntimeLine | library/Icinga/Protocol/Commandpipe/CommandPipe.php:360-373 | the downtime removal for one object, by id first; stated by Protocol.RemoveDowntimeJoin |
| Encoding.ObsessLine | library/Icinga/Protocol/Commandpipe/CommandPipe.php:681-689 | the start or stop obsessing line for one object; stated by Protocol.ObsessJoin |
| Encoding.CustomNotificationLine | library/Icinga/Protocol/Commandpipe/CommandPipe.php:725-735 | the custom notification for one object; stated by Protocol.CustomNotificationJoin |
| Encoding.HostWideLine | library/Icinga/Protocol/Commandpipe/CommandPipe.php:744-789 | the four host-wide service commands for one host; stated by Protocol.HostWideJoin |
| Encoding.ResetAttributesLine | library/Icinga/Protocol/Commandpipe/CommandPipe.php:798-805 | the modified-attribute reset for one object; stated by Protocol.ResetAttributesJoin |
| Encoding.DelayNotificationLine | library/Icinga/Protocol/Commandpipe/CommandPipe.php:816-823 | the notification delay for one object; stated by Protocol.DelayNotificationJoin |
| Encoding.ObjectPropertyLines | library/Icinga/Protocol/Commandpipe/CommandPipe.php:395-402 | one object's property lines, one per flag, each template followed by `;host` and for a service `;service`; stated by Protocol.ObjectPropertyLineAt |
| Encoding.PropertyLines | library/Icinga/Protocol/Commandpipe/CommandPipe.php:394-403 | the property lines of all objects, object by object; stated by Protocol.PropertyLinesCount and Protocol.PropertyLinesAt |
| Protocol.ObjectPropertyLineAt | library/Icinga/Protocol/Commandpipe/CommandPipe.php:397-401 | line j of one object's property lines is the template for flag j followed by the object's name fields |
| Bits.BitOr | library/Icinga/Protocol/Commandpipe/CommandPipe.php:722 | PHP's bitwise OR on non-negative integers; the result is at least each operand and at most their sum, and its bits are stated by Bits.BitOrBit |
| Bits.OrAll | library/Icinga/Protocol/Commandpipe/CommandPipe.php:719-723 | the options value: the first option OR-ed with each further one in argument order; it is at least the first option |
| Strings.NatToString | library/Icinga/Protocol/Commandpipe/CommandPipe.php:196-200 | the decimal digits of a non-negative integer: at least one digit, a leading `0` only for 0 itself, so no leading zeros |
| Strings.IntToString | library/Icinga/Protocol/Commandpipe/CommandPipe.php:196-200 | the decimal text PHP interpolates for an integer; it is a numeral without `;`, and Strings.ParseIntToString reads it back |
| Strings.Sprintf | library/Icinga/Protocol/Commandpipe/CommandPipe.php:157-161 | `sprintf` for templates with `%s` and `%%` directives; stated by Strings.SprintfLiteral, Strings.SprintfSlot, Strings.OneSlot and Strings.TwoSlots |
| Strings.SprintfLiteral | library/Icinga/Protocol/Commandpipe/CommandPipe.php:157-161 | a template without `%` is sent as written |
| Strings.SprintfSlot | library/Icinga/Protocol/Commandpipe/CommandPipe.php:157-161 | a `%s` after literal text takes the next argument, and the rest of the template the remaining ones |
| Strings.ParseIntToString | library/Icinga/Protocol/Commandpipe/CommandPipe.php:196-200 | an interpolated integer is a numeral that parses back to the same integer |
| Strings.SplitJoin | library/Icinga/Protocol/Commandpipe/CommandPipe.php:174-178 | fields free of `;`, once joined by `;`, split back into the same fields |
| Strings.OneSlot | library/Icinga/Protocol/Commandpipe/CommandPipe.php:160-161 | `sprintf` with one `%s` puts the argument in place of the slot |
| Strings.TwoSlots | library/Icinga/Protocol/Commandpipe/CommandPipe.php:157-158 | `sprintf` with two `%s` slots puts the arguments in place, in order |
| Bits.BitOrBit | library/Icinga/Protocol/Commandpipe/CommandPipe.php:722 | a bit is set in the OR of `a` and `b` exactly when it is set in `a` or in `b` |
| Bits.OrAllBit | library/Icinga/Protocol/Commandpipe/CommandPipe.php:720-723 | a bit is set in the combined options exactly when it is set in one of them |
| Bits.OrAllBelow | library/Icinga/Protocol/Commandpipe/CommandPipe.php:720-723 | options that all fit in k bits combine to a value that fits in k bits |
| Bits.BitOrCommutes | library/Icinga/Protocol/Commandpipe/CommandPipe.php:722 | the OR of two operands does not depend on their order |
| Bits.BitOrIdempotent | library/Icinga/Protocol/Commandpipe/CommandPipe.php:722 | OR-ing a value with itself gives that value |
| Bits.BitExtensionality | library/Icinga/Protocol/Commandpipe/CommandPipe.php:722 | two values with the same one-digits are equal |
| Bits.OrAllBitIn | library/Icinga/Protocol/Commandpipe/CommandPipe.php:717-723 | a bit is set in the combined options exactly when it is set in one of the options, the third argument included |
| Bits.OrAllSameOptions | library/Icinga/Protocol/Commandpipe/CommandPipe.php:717-723 | the combined options value depends only on which options occur, the third argument included: not on their order, on which of them is passed as the third argument, or on how often each is given |
| Bits.OrAllPermutation | library/Icinga/Protocol/Commandpipe/CommandPipe.php:717-723 | reordering all the options, the third argument included, does not change the combined value |
| Bits.OrAllRepeat | library/Icinga/Protocol/Commandpipe/CommandPipe.php:717-723 | giving any option once more, the third argument included, does not change the combined value |
| Bits.BitOrZero | library/Icinga/Protocol/Commandpipe/CommandPipe.php:722 | OR-ing 0 as a further option changes nothing |
| Bits.OrAllZeroFirst | library/Icinga/Protocol/Commandpipe/CommandPipe.php:717-723 | the default third argument 0 is neutral: the options after it combine to the same value without it |

## Left out

- The `LocalPipe` and `SecureShell` transports, and what delivery does beyond recording the line. Delivery is file and remote-execution I/O. `sent` records what the transport was given.
- The classes `Comment`, `Acknowledgement`, `Downtime` and `PropertyModifier` are not part of this model. Their templates are parameters: a pair of `%s` templates (`Formats`), and a `catalog` from flag and object type to template. The `is_a` check is the choice between the `PlainComment` and `Ack` variants of the input; the `Acknowledgement` constructor is the parameter `wrap`.
- `sprintf` directives other than `%s` and `%%`, and templates with more `%s` slots than arguments, which PHP's `sprintf` rejects at run time. Only in-order `%s` substitution is used on provider templates. `Formats` admits only templates with those two directives, at most one `%s` in a host template and at most two in a service template.
- `time()`: it is the parameter `now`.
- PHP's loose typing of the time, state and start-time arguments. They are integers; PHP's `false` default for the time is modelled as 0, which is falsy like `false`.
- Commandpipe.CommandPipe.SendCustomNotification: options are non-negative integers. Negative values, whose PHP OR would be negative, are not modelled.
- `intval` on a comment id and the untouched downtime id are both modelled as an integer id rendered in decimal. Ids that are not integers are not modelled.
- Protocol.ReadBack and the other read-back lemmas require host names, service descriptions, check output, author and comment without `;`. The encoder does not escape `;`, so a `;` inside such a text would add fields.
- The duplicate definitions of `startObsessing` and `stopObsessing` (library/Icinga/Protocol/Commandpipe/CommandPipe.php:648-672 and 679-708) have identical bodies. Each is modelled once. PHP refuses a class that declares a method twice ("Cannot redeclare"), so the file as written does not load; the model describes what either definition does.
- Commandpipe.CommandPipe.RemoveDowntime: for a host without a downtime id and with a non-zero start time, the code writes `DEL_DOWNTIME_BY_HOST_NAME;host;starttime`, where the external-command format expects a service description as the third field. The model follows the code and does not promise what the monitoring core makes of that line.
- library/Icinga/Application/Installation/AuthenticationStep.php and modules/setup/library/Setup/Webserver.php are not part of this model. They deal with setup, configuration files and services outside the encoder.
