/**
 * What the encoded lines mean in the external-command format: the field
 * list each command family is made of, the host/service choice every
 * family makes, the count and order of the lines of a call, and the
 * options value of custom notifications.
 */
module Protocol {
  import opened Strings
  import opened Bits
  import opened Monitoring
  import opened Encoding
  import Commandpipe

  // ---------------------------------------------------------------------
  // The field table of the external-command format
  // ---------------------------------------------------------------------

  /** The families whose whole line the encoder writes itself (no provider template). */
  predicate Literal(c: Intent) {
    !c.Acknowledge? && !c.AddComment? && !c.ScheduleDowntime?
  }

  /**
   * The fields of the command a family sends for one object, command name
   * first, as the external-command format lays them out.
   */
  function Fields(c: Intent, o: Obj): (r: seq<string>)
    requires Literal(c)
  {
    match c
    case RemoveAcknowledge => RemoveAcknowledgeFields(o)
    case SubmitCheckResult(state, output) => SubmitCheckResultFields(state, output, o)
    case ScheduleCheck(forced, time, withChilds) => ScheduleCheckFields(forced, time, withChilds, o)
    case RemoveComment => RemoveCommentFields(o)
    case RemoveDowntime(starttime) => RemoveDowntimeFields(starttime, o)
    case Obsess(start) => ObsessFields(start, o)
    case CustomNotification(options, comment) => CustomNotificationFields(options, comment, o)
    case HostWide(cmd) => [HostWideName(cmd), o.hostName]
    case ResetAttributes => ResetAttributesFields(o)
    case DelayNotification(time) => DelayNotificationFields(time, o)
  }

  function RemoveAcknowledgeFields(o: Obj): (r: seq<string>) {
    if o.serviceDescription.Some? then ["REMOVE_SVC_ACKNOWLEDGEMENT", o.hostName, Description(o)]
    else ["REMOVE_HOST_ACKNOWLEDGEMENT", o.hostName]
  }

  function SubmitCheckResultFields(state: int, output: string, o: Obj): (r: seq<string>) {
    if o.serviceDescription.Some? then
      ["PROCESS_SERVICE_CHECK_RESULT", o.hostName, Description(o), IntToString(state), output]
    else ["PROCESS_HOST_CHECK_RESULT", o.hostName, IntToString(state), output]
  }

  /** The name of a check scheduling command. */
  function ScheduleCheckName(forced: bool, withChilds: bool, service: bool): (r: string) {
    if service then (if forced then "SCHEDULE_FORCED_SVC_CHECK" else "SCHEDULE_SVC_CHECK")
    else if withChilds then (if forced then "SCHEDULE_FORCED_HOST_SVC_CHECKS" else "SCHEDULE_HOST_SVC_CHECKS")
    else (if forced then "SCHEDULE_FORCED_HOST_CHECK" else "SCHEDULE_HOST_CHECK")
  }

  function ScheduleCheckFields(forced: bool, time: int, withChilds: bool, o: Obj): (r: seq<string>) {
    var name := ScheduleCheckName(forced, withChilds, o.serviceDescription.Some?);
    if o.serviceDescription.Some? then [name, o.hostName, Description(o), IntToString(time)]
    else [name, o.hostName, IntToString(time)]
  }

  function RemoveCommentFields(o: Obj): (r: seq<string>) {
    var svc := o.serviceDescription.Some?;
    match o.commentId
    case Some(id) => [if svc then "DEL_SERVICE_COMMENT" else "DEL_HOST_COMMENT", IntToString(id)]
    case None => if svc then ["DEL_ALL_SERVICE_COMMENTS", o.hostName, Description(o)] else ["DEL_ALL_HOST_COMMENTS", o.hostName]
  }

  function RemoveDowntimeFields(starttime: int, o: Obj): (r: seq<string>) {
    var svc := o.serviceDescription.Some?;
    match o.downtimeId
    case Some(id) => [if svc then "DEL_SVC_DOWNTIME" else "DEL_HOST_DOWNTIME", IntToString(id)]
    case None =>
      ["DEL_DOWNTIME_BY_HOST_NAME", o.hostName] + (if svc then [Description(o)] else [])
        + (if starttime != 0 then [IntToString(starttime)] else [])
  }

  function ObsessFields(start: bool, o: Obj): (r: seq<string>) {
    if o.serviceDescription.Some? then
      [if start then "START_OBSESSING_OVER_SVC" else "STOP_OBSESSING_OVER_SVC", o.hostName, Description(o)]
    else [if start then "START_OBSESSING_OVER_HOST" else "STOP_OBSESSING_OVER_HOST", o.hostName]
  }

  function CustomNotificationFields(options: nat, comment: Comment, o: Obj): (r: seq<string>) {
    if o.serviceDescription.Some? then
      ["SEND_CUSTOM_SVC_NOTIFICATION", o.hostName, Description(o), IntToString(options), comment.author, comment.comment]
    else ["SEND_CUSTOM_HOST_NOTIFICATION", o.hostName, IntToString(options), comment.author, comment.comment]
  }

  function ResetAttributesFields(o: Obj): (r: seq<string>) {
    if o.serviceDescription.Some? then ["CHANGE_SVC_MODATTR", o.hostName, Description(o), "0"]
    else ["CHANGE_HOST_MODATTR", o.hostName, "0"]
  }

  function DelayNotificationFields(time: int, o: Obj): (r: seq<string>) {
    if o.serviceDescription.Some? then ["DELAY_SVC_NOTIFICATION", o.hostName, Description(o), IntToString(time)]
    else ["DELAY_HOST_NOTIFICATION", o.hostName, IntToString(time)]
  }

  /** The texts the caller supplies can be read back as single fields. */
  predicate Clean(c: Intent, o: Obj) {
    && NoSep(o.hostName) && NoSep(Description(o))
    && (c.SubmitCheckResult? ==> NoSep(c.output))
    && (c.CustomNotification? ==> NoSep(c.notification.author) && NoSep(c.notification.comment))
  }

  /** No field of `fs` contains the separator. */
  predicate AllNoSep(fs: seq<string>) {
    forall i :: 0 <= i < |fs| ==> NoSep(fs[i])
  }

  lemma Join2(a: string, b: string)
    ensures Join([a, b]) == a + [Sep] + b
  {
    JoinSnoc([a], b);
    assert [a] + [b] == [a, b];
  }

  lemma Join3(a: string, b: string, c: string)
    ensures Join([a, b, c]) == a + [Sep] + b + [Sep] + c
  {
    Join2(a, b);
    JoinSnoc([a, b], c);
    assert [a, b] + [c] == [a, b, c];
  }

  lemma Join4(a: string, b: string, c: string, d: string)
    ensures Join([a, b, c, d]) == a + [Sep] + b + [Sep] + c + [Sep] + d
  {
    Join3(a, b, c);
    JoinSnoc([a, b, c], d);
    assert [a, b, c] + [d] == [a, b, c, d];
  }

  lemma Join5(a: string, b: string, c: string, d: string, e: string)
    ensures Join([a, b, c, d, e]) == a + [Sep] + b + [Sep] + c + [Sep] + d + [Sep] + e
  {
    Join4(a, b, c, d);
    JoinSnoc([a, b, c, d], e);
    assert [a, b, c, d] + [e] == [a, b, c, d, e];
  }

  lemma Join6(a: string, b: string, c: string, d: string, e: string, f: string)
    ensures Join([a, b, c, d, e, f]) == a + [Sep] + b + [Sep] + c + [Sep] + d + [Sep] + e + [Sep] + f
  {
    Join5(a, b, c, d, e);
    JoinSnoc([a, b, c, d, e], f);
    assert [a, b, c, d, e] + [f] == [a, b, c, d, e, f];
  }

  // ---------------------------------------------------------------------
  // Each family's line is the line of its fields
  // ---------------------------------------------------------------------

  // Each command name contains no separator, and is followed by one in the
  // literal text its line function starts with.

  lemma RemoveSvcAcknowledgementName()
    ensures "REMOVE_SVC_ACKNOWLEDGEMENT;" == "REMOVE_SVC_ACKNOWLEDGEMENT" + [Sep]
    ensures NoSep("REMOVE_SVC_ACKNOWLEDGEMENT")
  {
  }

  lemma RemoveHostAcknowledgementName()
    ensures "REMOVE_HOST_ACKNOWLEDGEMENT;" == "REMOVE_HOST_ACKNOWLEDGEMENT" + [Sep]
    ensures NoSep("REMOVE_HOST_ACKNOWLEDGEMENT")
  {
  }

  lemma ProcessServiceCheckResultName()
    ensures "PROCESS_SERVICE_CHECK_RESULT;" == "PROCESS_SERVICE_CHECK_RESULT" + [Sep]
    ensures NoSep("PROCESS_SERVICE_CHECK_RESULT")
  {
  }

  lemma ProcessHostCheckResultName()
    ensures "PROCESS_HOST_CHECK_RESULT;" == "PROCESS_HOST_CHECK_RESULT" + [Sep]
    ensures NoSep("PROCESS_HOST_CHECK_RESULT")
  {
  }

  lemma ScheduleForcedSvcCheckName()
    ensures "SCHEDULE_FORCED_" + "SVC_CHECK;" == "SCHEDULE_FORCED_SVC_CHECK" + [Sep]
    ensures NoSep("SCHEDULE_FORCED_SVC_CHECK")
  {
  }

  lemma ScheduleSvcCheckName()
    ensures "SCHEDULE_" + "SVC_CHECK;" == "SCHEDULE_SVC_CHECK" + [Sep]
    ensures NoSep("SCHEDULE_SVC_CHECK")
  {
  }

  lemma ScheduleForcedHostSvcChecksName()
    ensures "SCHEDULE_FORCED_" + "HOST_" + "SVC_CHECKS" + ";" == "SCHEDULE_FORCED_HOST_SVC_CHECKS" + [Sep]
    ensures NoSep("SCHEDULE_FORCED_HOST_SVC_CHECKS")
  {
  }

  lemma ScheduleForcedHostCheckName()
    ensures "SCHEDULE_FORCED_" + "HOST_" + "CHECK" + ";" == "SCHEDULE_FORCED_HOST_CHECK" + [Sep]
    ensures NoSep("SCHEDULE_FORCED_HOST_CHECK")
  {
  }

  lemma ScheduleHostSvcChecksName()
    ensures "SCHEDULE_" + "HOST_" + "SVC_CHECKS" + ";" == "SCHEDULE_HOST_SVC_CHECKS" + [Sep]
    ensures NoSep("SCHEDULE_HOST_SVC_CHECKS")
  {
  }

  lemma ScheduleHostCheckName()
    ensures "SCHEDULE_" + "HOST_" + "CHECK" + ";" == "SCHEDULE_HOST_CHECK" + [Sep]
    ensures NoSep("SCHEDULE_HOST_CHECK")
  {
  }

  lemma DelServiceCommentName()
    ensures "DEL_" + "SERVICE_COMMENT" + ";" == "DEL_SERVICE_COMMENT" + [Sep]
    ensures NoSep("DEL_SERVICE_COMMENT")
  {
  }

  lemma DelHostCommentName()
    ensures "DEL_" + "HOST_COMMENT" + ";" == "DEL_HOST_COMMENT" + [Sep]
    ensures NoSep("DEL_HOST_COMMENT")
  {
  }

  lemma DelAllServiceCommentsName()
    ensures "DEL_ALL_" + "SERVICE_COMMENT" + "S;" == "DEL_ALL_SERVICE_COMMENTS" + [Sep]
    ensures NoSep("DEL_ALL_SERVICE_COMMENTS")
  {
  }

  lemma DelAllHostCommentsName()
    ensures "DEL_ALL_" + "HOST_COMMENT" + "S;" == "DEL_ALL_HOST_COMMENTS" + [Sep]
    ensures NoSep("DEL_ALL_HOST_COMMENTS")
  {
  }

  lemma DelSvcDowntimeName()
    ensures "DEL_" + "SVC" + "_DOWNTIME;" == "DEL_SVC_DOWNTIME" + [Sep]
    ensures NoSep("DEL_SVC_DOWNTIME")
  {
  }

  lemma DelHostDowntimeName()
    ensures "DEL_" + "HOST" + "_DOWNTIME;" == "DEL_HOST_DOWNTIME" + [Sep]
    ensures NoSep("DEL_HOST_DOWNTIME")
  {
  }

  lemma DelDowntimeByHostNameName()
    ensures "DEL_DOWNTIME_BY_HOST_NAME;" == "DEL_DOWNTIME_BY_HOST_NAME" + [Sep]
    ensures NoSep("DEL_DOWNTIME_BY_HOST_NAME")
  {
  }

  lemma DisableHostSvcNotificationsName()
    ensures "DISABLE_HOST_SVC_NOTIFICATIONS;" == "DISABLE_HOST_SVC_NOTIFICATIONS" + [Sep]
    ensures NoSep("DISABLE_HOST_SVC_NOTIFICATIONS")
  {
  }

  lemma EnableHostSvcNotificationsName()
    ensures "ENABLE_HOST_SVC_NOTIFICATIONS;" == "ENABLE_HOST_SVC_NOTIFICATIONS" + [Sep]
    ensures NoSep("ENABLE_HOST_SVC_NOTIFICATIONS")
  {
  }

  lemma DisableHostSvcChecksName()
    ensures "DISABLE_HOST_SVC_CHECKS;" == "DISABLE_HOST_SVC_CHECKS" + [Sep]
    ensures NoSep("DISABLE_HOST_SVC_CHECKS")
  {
  }

  lemma EnableHostSvcChecksName()
    ensures "ENABLE_HOST_SVC_CHECKS;" == "ENABLE_HOST_SVC_CHECKS" + [Sep]
    ensures NoSep("ENABLE_HOST_SVC_CHECKS")
  {
  }

  lemma ChangeSvcModattrName()
    ensures "CHANGE_SVC_MODATTR;" == "CHANGE_SVC_MODATTR" + [Sep]
    ensures NoSep("CHANGE_SVC_MODATTR")
  {
  }

  lemma ChangeHostModattrName()
    ensures "CHANGE_HOST_MODATTR;" == "CHANGE_HOST_MODATTR" + [Sep]
    ensures NoSep("CHANGE_HOST_MODATTR")
  {
  }

  lemma DelaySvcNotificationName()
    ensures "DELAY_SVC_NOTIFICATION;" == "DELAY_SVC_NOTIFICATION" + [Sep]
    ensures NoSep("DELAY_SVC_NOTIFICATION")
  {
  }

  lemma DelayHostNotificationName()
    ensures "DELAY_HOST_NOTIFICATION;" == "DELAY_HOST_NOTIFICATION" + [Sep]
    ensures NoSep("DELAY_HOST_NOTIFICATION")
  {
  }

  lemma StartObsessingOverSvcName()
    ensures "START_OBSESSING_OVER_" + "SVC" == "START_OBSESSING_OVER_SVC"
    ensures NoSep("START_OBSESSING_OVER_SVC")
  {
  }

  lemma StopObsessingOverSvcName()
    ensures "STOP_OBSESSING_OVER_" + "SVC" == "STOP_OBSESSING_OVER_SVC"
    ensures NoSep("STOP_OBSESSING_OVER_SVC")
  {
  }

  lemma StartObsessingOverHostName()
    ensures "START_OBSESSING_OVER_" + "HOST" == "START_OBSESSING_OVER_HOST"
    ensures NoSep("START_OBSESSING_OVER_HOST")
  {
  }

  lemma StopObsessingOverHostName()
    ensures "STOP_OBSESSING_OVER_" + "HOST" == "STOP_OBSESSING_OVER_HOST"
    ensures NoSep("STOP_OBSESSING_OVER_HOST")
  {
  }

  lemma SendCustomSvcNotificationName()
    ensures "SEND_CUSTOM_" + "SVC" + "_NOTIFICATION" == "SEND_CUSTOM_SVC_NOTIFICATION"
    ensures NoSep("SEND_CUSTOM_SVC_NOTIFICATION")
  {
  }

  lemma SendCustomHostNotificationName()
    ensures "SEND_CUSTOM_" + "HOST" + "_NOTIFICATION" == "SEND_CUSTOM_HOST_NOTIFICATION"
    ensures NoSep("SEND_CUSTOM_HOST_NOTIFICATION")
  {
  }

  lemma ModifiedAttributesSuffix()
    ensures ";0" == [Sep] + "0"
  {
  }

  // Each family's line is the join of its fields, and those fields are
  // free of separators when the caller's texts are.

  lemma RemoveAcknowledgeJoin(o: Obj)
    ensures Join(RemoveAcknowledgeFields(o)) == RemoveAcknowledgeLine(o)
    ensures NoSep(o.hostName) && NoSep(Description(o)) ==> AllNoSep(RemoveAcknowledgeFields(o))
  {
    if o.serviceDescription.Some? {
      RemoveSvcAcknowledgementName();
      Join3("REMOVE_SVC_ACKNOWLEDGEMENT", o.hostName, Description(o));
    } else {
      RemoveHostAcknowledgementName();
      Join2("REMOVE_HOST_ACKNOWLEDGEMENT", o.hostName);
    }
  }

  lemma SubmitCheckResultJoin(state: int, output: string, o: Obj)
    ensures Join(SubmitCheckResultFields(state, output, o)) == SubmitCheckResultLine(state, output, o)
    ensures NoSep(o.hostName) && NoSep(Description(o)) && NoSep(output) ==> AllNoSep(SubmitCheckResultFields(state, output, o))
  {
    if o.serviceDescription.Some? {
      ProcessServiceCheckResultName();
      Join5("PROCESS_SERVICE_CHECK_RESULT", o.hostName, Description(o), IntToString(state), output);
    } else {
      ProcessHostCheckResultName();
      Join4("PROCESS_HOST_CHECK_RESULT", o.hostName, IntToString(state), output);
    }
  }

  lemma ScheduleCheckJoin(forced: bool, time: int, withChilds: bool, o: Obj)
    ensures Join(ScheduleCheckFields(forced, time, withChilds, o)) == ScheduleCheckLine(forced, time, withChilds, o)
    ensures NoSep(o.hostName) && NoSep(Description(o)) ==> AllNoSep(ScheduleCheckFields(forced, time, withChilds, o))
  {
    var name := ScheduleCheckName(forced, withChilds, o.serviceDescription.Some?);
    if o.serviceDescription.Some? {
      if forced {
        ScheduleForcedSvcCheckName();
      } else {
        ScheduleSvcCheckName();
      }
      Join4(name, o.hostName, Description(o), IntToString(time));
    } else {
      if forced && withChilds {
        ScheduleForcedHostSvcChecksName();
      } else if forced {
        ScheduleForcedHostCheckName();
      } else if withChilds {
        ScheduleHostSvcChecksName();
      } else {
        ScheduleHostCheckName();
      }
      Join3(name, o.hostName, IntToString(time));
    }
  }

  lemma RemoveCommentJoin(o: Obj)
    ensures Join(RemoveCommentFields(o)) == RemoveCommentLine(o)
    ensures NoSep(o.hostName) && NoSep(Description(o)) ==> AllNoSep(RemoveCommentFields(o))
  {
    match o.commentId
    case Some(id) =>
      if o.serviceDescription.Some? {
        DelServiceCommentName();
        Join2("DEL_SERVICE_COMMENT", IntToString(id));
      } else {
        DelHostCommentName();
        Join2("DEL_HOST_COMMENT", IntToString(id));
      }
    case None =>
      if o.serviceDescription.Some? {
        DelAllServiceCommentsName();
        Join3("DEL_ALL_SERVICE_COMMENTS", o.hostName, Description(o));
      } else {
        DelAllHostCommentsName();
        CommentTypesDiffer();
        Join2("DEL_ALL_HOST_COMMENTS", o.hostName);
      }
  }

  lemma RemoveDowntimeJoin(starttime: int, o: Obj)
    ensures Join(RemoveDowntimeFields(starttime, o)) == RemoveDowntimeLine(starttime, o)
    ensures NoSep(o.hostName) && NoSep(Description(o)) ==> AllNoSep(RemoveDowntimeFields(starttime, o))
  {
    match o.downtimeId
    case Some(id) =>
      if o.serviceDescription.Some? {
        DelSvcDowntimeName();
        Join2("DEL_SVC_DOWNTIME", IntToString(id));
      } else {
        DelHostDowntimeName();
        Join2("DEL_HOST_DOWNTIME", IntToString(id));
      }
    case None =>
      RemoveDowntimeByName(starttime, o);
  }

  lemma RemoveDowntimeByName(starttime: int, o: Obj)
    requires o.downtimeId.None?
    ensures Join(RemoveDowntimeFields(starttime, o)) == RemoveDowntimeLine(starttime, o)
    ensures NoSep(o.hostName) && NoSep(Description(o)) ==> AllNoSep(RemoveDowntimeFields(starttime, o))
  {
    DelDowntimeByHostNameName();
    var name := "DEL_DOWNTIME_BY_HOST_NAME";
    var h, s, st := o.hostName, Description(o), IntToString(starttime);
    var fs := RemoveDowntimeFields(starttime, o);
    var line := RemoveDowntimeLine(starttime, o);
    if o.serviceDescription.Some? && starttime != 0 {
      assert fs == [name, h, s, st];
      assert line == "DEL_DOWNTIME_BY_HOST_NAME;" + h + ";" + s + ";" + st;
      Join4(name, h, s, st);
    } else if o.serviceDescription.Some? {
      assert fs == [name, h, s];
      assert line == "DEL_DOWNTIME_BY_HOST_NAME;" + h + ";" + s;
      Join3(name, h, s);
    } else if starttime != 0 {
      assert fs == [name, h, st];
      assert line == "DEL_DOWNTIME_BY_HOST_NAME;" + h + ";" + st;
      Join3(name, h, st);
    } else {
      assert fs == [name, h];
      assert line == "DEL_DOWNTIME_BY_HOST_NAME;" + h;
      Join2(name, h);
    }
  }

  lemma ObsessJoin(start: bool, o: Obj)
    ensures Join(ObsessFields(start, o)) == ObsessLine(start, o)
    ensures NoSep(o.hostName) && NoSep(Description(o)) ==> AllNoSep(ObsessFields(start, o))
  {
    if o.serviceDescription.Some? {
      if start {
        StartObsessingOverSvcName();
      } else {
        StopObsessingOverSvcName();
      }
      Join3(if start then "START_OBSESSING_OVER_SVC" else "STOP_OBSESSING_OVER_SVC", o.hostName, Description(o));
    } else {
      if start {
        StartObsessingOverHostName();
      } else {
        StopObsessingOverHostName();
      }
      Join2(if start then "START_OBSESSING_OVER_HOST" else "STOP_OBSESSING_OVER_HOST", o.hostName);
    }
  }

  lemma CustomNotificationJoin(options: nat, comment: Comment, o: Obj)
    ensures Join(CustomNotificationFields(options, comment, o)) == CustomNotificationLine(options, comment, o)
    ensures NoSep(o.hostName) && NoSep(Description(o)) && NoSep(comment.author) && NoSep(comment.comment)
      ==> AllNoSep(CustomNotificationFields(options, comment, o))
  {
    var opts := IntToString(options);
    if o.serviceDescription.Some? {
      SendCustomSvcNotificationName();
      Join6("SEND_CUSTOM_SVC_NOTIFICATION", o.hostName, Description(o), opts, comment.author, comment.comment);
    } else {
      SendCustomHostNotificationName();
      Join5("SEND_CUSTOM_HOST_NOTIFICATION", o.hostName, opts, comment.author, comment.comment);
    }
  }

  lemma HostWideJoin(cmd: HostWideCommand, o: Obj)
    ensures Join([HostWideName(cmd), o.hostName]) == HostWideLine(cmd, o)
    ensures NoSep(o.hostName) ==> AllNoSep([HostWideName(cmd), o.hostName])
  {
    Join2(HostWideName(cmd), o.hostName);
    match cmd
    case DisableServiceNotifications => DisableHostSvcNotificationsName();
    case EnableServiceNotifications => EnableHostSvcNotificationsName();
    case DisableServiceChecks => DisableHostSvcChecksName();
    case EnableServiceChecks => EnableHostSvcChecksName();
  }

  lemma ResetAttributesJoin(o: Obj)
    ensures Join(ResetAttributesFields(o)) == ResetAttributesLine(o)
    ensures NoSep(o.hostName) && NoSep(Description(o)) ==> AllNoSep(ResetAttributesFields(o))
  {
    ModifiedAttributesSuffix();
    if o.serviceDescription.Some? {
      ChangeSvcModattrName();
      var x := "CHANGE_SVC_MODATTR;" + o.hostName + ";" + Description(o);
      assert x + ";0" == x + [Sep] + "0";
      Join4("CHANGE_SVC_MODATTR", o.hostName, Description(o), "0");
    } else {
      ChangeHostModattrName();
      var x := "CHANGE_HOST_MODATTR;" + o.hostName;
      assert x + ";0" == x + [Sep] + "0";
      Join3("CHANGE_HOST_MODATTR", o.hostName, "0");
    }
  }

  lemma DelayNotificationJoin(time: int, o: Obj)
    ensures Join(DelayNotificationFields(time, o)) == DelayNotificationLine(time, o)
    ensures NoSep(o.hostName) && NoSep(Description(o)) ==> AllNoSep(DelayNotificationFields(time, o))
  {
    if o.serviceDescription.Some? {
      DelaySvcNotificationName();
      Join4("DELAY_SVC_NOTIFICATION", o.hostName, Description(o), IntToString(time));
    } else {
      DelayHostNotificationName();
      Join3("DELAY_HOST_NOTIFICATION", o.hostName, IntToString(time));
    }
  }

  /** Every literal family's line is its field list joined by `;`; with clean caller texts, no field contains `;`. */
  lemma JoinFields(c: Intent, o: Obj)
    requires Literal(c)
    ensures Join(Fields(c, o)) == Line(c, o)
    ensures Clean(c, o) ==> AllNoSep(Fields(c, o))
  {
    match c {
      case RemoveAcknowledge => RemoveAcknowledgeJoin(o);
      case SubmitCheckResult(state, output) => SubmitCheckResultJoin(state, output, o);
      case ScheduleCheck(forced, time, withChilds) => ScheduleCheckJoin(forced, time, withChilds, o);
      case RemoveComment => RemoveCommentJoin(o);
      case RemoveDowntime(starttime) => RemoveDowntimeJoin(starttime, o);
      case Obsess(start) => ObsessJoin(start, o);
      case CustomNotification(options, comment) => CustomNotificationJoin(options, comment, o);
      case HostWide(cmd) => HostWideJoin(cmd, o);
      case ResetAttributes => ResetAttributesJoin(o);
      case DelayNotification(time) => DelayNotificationJoin(time, o);
    }
  }

  /**
   * Every literal family's line is its field list joined by `;`, and, when
   * the caller's texts contain no `;`, splitting the line gives exactly
   * that field list back.
   */
  lemma LineFields(c: Intent, o: Obj)
    requires Literal(c)
    ensures Join(Fields(c, o)) == Line(c, o)
    ensures Clean(c, o) ==> Split(Line(c, o)) == Fields(c, o)
  {
    JoinFields(c, o);
    var fs := Fields(c, o);
    if Clean(c, o) {
      assert |fs| >= 1 by { FieldsNonEmpty(c, o); }
      SplitJoin(fs);
    }
  }

  /** A command has at least its name as a field. */
  lemma FieldsNonEmpty(c: Intent, o: Obj)
    requires Literal(c)
    ensures |Fields(c, o)| >= 2
  {
  }

  // ---------------------------------------------------------------------
  // What can be read back from the sent lines
  // ---------------------------------------------------------------------

  /** The fields of line i of a call, read back by splitting at `;`. */
  function SentFields(c: Intent, objs: seq<Obj>, i: nat): (r: seq<string>)
    requires i < |objs|
  {
    Split(Lines(c, objs)[i])
  }

  /** Reading line i of a literal call back gives object i's field list, when the caller's texts are clean. */
  lemma ReadBack(c: Intent, objs: seq<Obj>, i: nat)
    requires Literal(c) && i < |objs| && Clean(c, objs[i])
    ensures SentFields(c, objs, i) == Fields(c, objs[i])
  {
    LinesAt(c, objs, i);
    LineFields(c, objs[i]);
  }

  /**
   * Every line of a passive check result carries the state and the same
   * output, the plugin output with `|perfdata` when perfdata is truthy.
   */
  lemma SentCheckResult(state: int, output: string, perfdata: string, objs: seq<Obj>, i: nat)
    requires i < |objs|
    requires Clean(Intent.SubmitCheckResult(state, CheckOutput(output, perfdata)), objs[i])
    ensures var fs := SentFields(Intent.SubmitCheckResult(state, CheckOutput(output, perfdata)), objs, i);
      && |fs| >= 3
      && fs[|fs| - 1] == CheckOutput(output, perfdata)
      && Numeral(fs[|fs| - 2]) && ParseInt(fs[|fs| - 2]) == state
  {
    var c := Intent.SubmitCheckResult(state, CheckOutput(output, perfdata));
    ReadBack(c, objs, i);
    var fs := SubmitCheckResultFields(state, CheckOutput(output, perfdata), objs[i]);
    assert SentFields(c, objs, i) == fs;
    assert fs[|fs| - 2] == IntToString(state);
    ParseIntToString(state);
  }

  /** Perfdata changes the output exactly when it is truthy. */
  lemma PerfdataAppendedIffTruthy(output: string, perfdata: string)
    ensures CheckOutput(output, perfdata) == output <==> !Truthy(perfdata)
  {
    if Truthy(perfdata) {
      assert |CheckOutput(output, perfdata)| > |output|;
    }
  }

  /** Every line of a check scheduling carries the time, and a falsy time was replaced by `now`. */
  lemma SentCheckTime(forced: bool, time: int, withChilds: bool, now: int, objs: seq<Obj>, i: nat)
    requires i < |objs|
    requires Clean(Intent.ScheduleCheck(forced, CheckTime(time, now), withChilds), objs[i])
    ensures var fs := SentFields(Intent.ScheduleCheck(forced, CheckTime(time, now), withChilds), objs, i);
      && |fs| >= 3
      && Numeral(fs[|fs| - 1])
      && ParseInt(fs[|fs| - 1]) == (if time == 0 then now else time)
  {
    var c := Intent.ScheduleCheck(forced, CheckTime(time, now), withChilds);
    ReadBack(c, objs, i);
    var fs := ScheduleCheckFields(forced, CheckTime(time, now), withChilds, objs[i]);
    assert SentFields(c, objs, i) == fs;
    assert fs[|fs| - 1] == IntToString(CheckTime(time, now));
    ParseIntToString(CheckTime(time, now));
  }

  /** Every line of a custom notification carries the same options value, the OR of all options given. */
  lemma SentNotificationOptions(options: nat, more: seq<nat>, comment: Comment, objs: seq<Obj>, i: nat)
    requires i < |objs|
    requires Clean(Intent.CustomNotification(OrAll(options, more), comment), objs[i])
    ensures var fs := SentFields(Intent.CustomNotification(OrAll(options, more), comment), objs, i);
      && |fs| >= 5
      && Numeral(fs[|fs| - 3]) && ParseInt(fs[|fs| - 3]) == OrAll(options, more)
      && fs[|fs| - 2] == comment.author && fs[|fs| - 1] == comment.comment
  {
    var c := Intent.CustomNotification(OrAll(options, more), comment);
    ReadBack(c, objs, i);
    var value := OrAll(options, more);
    var fs := CustomNotificationFields(value, comment, objs[i]);
    assert SentFields(c, objs, i) == fs;
    assert fs[|fs| - 3] == IntToString(value);
    ParseIntToString(value);
  }

  /**
   * `host` and `service` are the field tables of the same object as a host
   * and as a service: both carry the host name second, the service's carries
   * the description third, and after it exactly the fields the host's
   * carries after the host name.
   */
  predicate HostServicePair(host: seq<string>, service: seq<string>, hostName: string, description: string) {
    && |host| >= 2 && host[1] == hostName
    && |service| == |host| + 1 && service[1] == hostName && service[2] == description
    && host[2..] == service[3..]
  }

  lemma RemoveAcknowledgeIdentity(o: Obj, s: string)
    requires o.serviceDescription.None?
    ensures HostServicePair(RemoveAcknowledgeFields(o), RemoveAcknowledgeFields(o.(serviceDescription := Some(s))), o.hostName, s)
  {
  }

  lemma SubmitCheckResultIdentity(state: int, output: string, o: Obj, s: string)
    requires o.serviceDescription.None?
    ensures HostServicePair(SubmitCheckResultFields(state, output, o), SubmitCheckResultFields(state, output, o.(serviceDescription := Some(s))), o.hostName, s)
  {
  }

  lemma ScheduleCheckIdentity(forced: bool, time: int, withChilds: bool, o: Obj, s: string)
    requires o.serviceDescription.None?
    ensures HostServicePair(ScheduleCheckFields(forced, time, withChilds, o), ScheduleCheckFields(forced, time, withChilds, o.(serviceDescription := Some(s))), o.hostName, s)
  {
  }

  lemma RemoveCommentIdentity(o: Obj, s: string)
    requires o.serviceDescription.None?
    requires o.commentId.None?
    ensures HostServicePair(RemoveCommentFields(o), RemoveCommentFields(o.(serviceDescription := Some(s))), o.hostName, s)
  {
  }

  lemma RemoveDowntimeIdentity(starttime: int, o: Obj, s: string)
    requires o.serviceDescription.None?
    requires o.downtimeId.None?
    ensures HostServicePair(RemoveDowntimeFields(starttime, o), RemoveDowntimeFields(starttime, o.(serviceDescription := Some(s))), o.hostName, s)
  {
  }

  lemma ObsessIdentity(start: bool, o: Obj, s: string)
    requires o.serviceDescription.None?
    ensures HostServicePair(ObsessFields(start, o), ObsessFields(start, o.(serviceDescription := Some(s))), o.hostName, s)
  {
  }

  lemma CustomNotificationIdentity(options: nat, comment: Comment, o: Obj, s: string)
    requires o.serviceDescription.None?
    ensures HostServicePair(CustomNotificationFields(options, comment, o), CustomNotificationFields(options, comment, o.(serviceDescription := Some(s))), o.hostName, s)
  {
  }

  lemma ResetAttributesIdentity(o: Obj, s: string)
    requires o.serviceDescription.None?
    ensures HostServicePair(ResetAttributesFields(o), ResetAttributesFields(o.(serviceDescription := Some(s))), o.hostName, s)
  {
  }

  lemma DelayNotificationIdentity(time: int, o: Obj, s: string)
    requires o.serviceDescription.None?
    ensures HostServicePair(DelayNotificationFields(time, o), DelayNotificationFields(time, o.(serviceDescription := Some(s))), o.hostName, s)
  {
  }

  /** A host's fields are those of the same object as a service, without the description. */
  lemma HostFields(c: Intent, o: Obj, s: string)
    requires Literal(c) && !c.HostWide? && o.serviceDescription.None?
    requires !(c.RemoveComment? && o.commentId.Some?) && !(c.RemoveDowntime? && o.downtimeId.Some?)
    ensures HostServicePair(Fields(c, o), Fields(c, o.(serviceDescription := Some(s))), o.hostName, s)
  {
    match c
    case RemoveAcknowledge => RemoveAcknowledgeIdentity(o, s);
    case SubmitCheckResult(state, output) => SubmitCheckResultIdentity(state, output, o, s);
    case ScheduleCheck(forced, time, withChilds) => ScheduleCheckIdentity(forced, time, withChilds, o, s);
    case RemoveComment => RemoveCommentIdentity(o, s);
    case RemoveDowntime(starttime) => RemoveDowntimeIdentity(starttime, o, s);
    case Obsess(start) => ObsessIdentity(start, o, s);
    case CustomNotification(options, comment) => CustomNotificationIdentity(options, comment, o, s);
    case ResetAttributes => ResetAttributesIdentity(o, s);
    case DelayNotification(time) => DelayNotificationIdentity(time, o, s);
  }

  /**
   * Every family that addresses an object by name puts the host name second
   * and, for a service, the service description third. A host's line has
   * no such field: after the host name it carries exactly the fields that
   * follow the description on the line of the same object as a service.
   */
  lemma IdentityFields(c: Intent, o: Obj, s: string)
    requires Literal(c) && !c.HostWide?
    requires !(c.RemoveComment? && o.commentId.Some?) && !(c.RemoveDowntime? && o.downtimeId.Some?)
    ensures |Fields(c, o)| >= 2 && Fields(c, o)[1] == o.hostName
    ensures o.serviceDescription.Some? ==> |Fields(c, o)| >= 3 && Fields(c, o)[2] == Description(o)
    ensures o.serviceDescription.None? ==>
      HostServicePair(Fields(c, o), Fields(c, o.(serviceDescription := Some(s))), o.hostName, s)
  {
    if o.serviceDescription.None? {
      HostFields(c, o, s);
    } else {
      var h := o.(serviceDescription := None);
      HostFields(c, h, Description(o));
      assert h.(serviceDescription := Some(Description(o))) == o;
    }
  }

  /** A comment id takes priority: the line names only the id and the object's type, not its host or service. */
  lemma CommentIdTakesPriority(o1: Obj, o2: Obj)
    requires o1.commentId.Some? && o1.commentId == o2.commentId
    requires o1.serviceDescription.Some? == o2.serviceDescription.Some?
    ensures RemoveCommentLine(o1) == RemoveCommentLine(o2)
  {
  }

  /** A downtime id takes priority: the line names only the id and the object's type, whatever the start time. */
  lemma DowntimeIdTakesPriority(starttime1: int, starttime2: int, o1: Obj, o2: Obj)
    requires o1.downtimeId.Some? && o1.downtimeId == o2.downtimeId
    requires o1.serviceDescription.Some? == o2.serviceDescription.Some?
    ensures RemoveDowntimeLine(starttime1, o1) == RemoveDowntimeLine(starttime2, o2)
  {
  }

  /** Without a downtime id, the start time is a field of its own exactly when it is not 0, and then it is the last one. */
  lemma DowntimeStarttimeField(starttime: int, o: Obj)
    requires o.downtimeId.None?
    ensures var fs := RemoveDowntimeFields(starttime, o);
      && |fs| == (if o.serviceDescription.Some? then 3 else 2) + (if starttime != 0 then 1 else 0)
      && (starttime != 0 ==> fs[|fs| - 1] == IntToString(starttime))
  {
  }

  // ---------------------------------------------------------------------
  // Provider templates
  // ---------------------------------------------------------------------

  /**
   * A provider's one-slot host template and two-slot service template are
   * filled with the object's host name, and its service description for a
   * service, in slot order.
   */
  lemma FilledTemplateSlots(f: Formats, o: Obj, hostPre: string, hostPost: string, pre: string, mid: string, post: string)
    requires '%' !in hostPre && '%' !in hostPost && f.0 == hostPre + "%s" + hostPost
    requires '%' !in pre && '%' !in mid && '%' !in post && f.1 == pre + "%s" + mid + "%s" + post
    ensures o.serviceDescription.None? ==> FilledTemplate(f, o) == hostPre + o.hostName + hostPost
    ensures o.serviceDescription.Some? ==> FilledTemplate(f, o) == pre + o.hostName + mid + Description(o) + post
  {
    OneSlot(hostPre, hostPost, o.hostName);
    TwoSlots(pre, mid, post, o.hostName, Description(o));
  }

  /** Acknowledging with a plain comment is acknowledging with the acknowledgement that wraps it. */
  lemma AcknowledgeWrapsComment(objs: seq<Obj>, c: Comment, wrap: Comment -> Acknowledgement)
    ensures Lines(Intent.Acknowledge(AsAcknowledgement(PlainComment(c), wrap)), objs)
      == Lines(Intent.Acknowledge(wrap(c)), objs)
  {
  }

  // ---------------------------------------------------------------------
  // Count and order of the lines of a call
  // ---------------------------------------------------------------------

  /** A property change sends one line per object and flag. */
  lemma PropertyLinesCount(pm: PropertyModifier, catalog: Catalog, objs: seq<Obj>)
    ensures |PropertyLines(pm, catalog, objs)| == |objs| * |pm.flags|
  {
    ConcatLength(o => ObjectPropertyLines(pm, catalog, o), |pm.flags|, objs);
  }

  /** The suffix a property line gets: `;host`, and `;service` for a service. */
  function IdentitySuffix(o: Obj): (r: string) {
    ";" + o.hostName + (if o.serviceDescription.Some? then ";" + Description(o) else "")
  }

  /** Line j of an object's property lines is the template for flag j followed by the object's fields. */
  lemma ObjectPropertyLineAt(pm: PropertyModifier, catalog: Catalog, o: Obj, j: nat)
    requires j < |pm.flags|
    ensures ObjectPropertyLines(pm, catalog, o)[j] == catalog(pm.flags[j], ObjectTypeOf(o)) + IdentitySuffix(o)
  {
    var line := catalog(pm.flags[j], ObjectTypeOf(o)) + ";" + o.hostName
      + (if ObjectTypeOf(o) == Service then ";" + Description(o) else "");
    assert ObjectPropertyLines(pm, catalog, o)[j] == line;
  }

  /**
   * Line `i * |flags| + j` of a property change is object i's template for
   * flag j, followed by object i's fields: objects outside, flags inside,
   * both in their given order.
   */
  lemma PropertyLinesAt(pm: PropertyModifier, catalog: Catalog, objs: seq<Obj>, i: nat, j: nat)
    requires i < |objs| && j < |pm.flags|
    ensures i * |pm.flags| + j < |PropertyLines(pm, catalog, objs)|
    ensures PropertyLines(pm, catalog, objs)[i * |pm.flags| + j]
      == catalog(pm.flags[j], ObjectTypeOf(objs[i])) + IdentitySuffix(objs[i])
  {
    ConcatAt(o => ObjectPropertyLines(pm, catalog, o), |pm.flags|, objs, i, j);
    ObjectPropertyLineAt(pm, catalog, objs[i], j);
  }

  /** Each single-property toggle sends exactly one line per object, in object order. */
  lemma SinglePropertyLines(f: Flag, catalog: Catalog, objs: seq<Obj>, i: nat)
    requires i < |objs|
    ensures |PropertyLines(PropertyModifier([f]), catalog, objs)| == |objs|
    ensures PropertyLines(PropertyModifier([f]), catalog, objs)[i] == catalog(f, ObjectTypeOf(objs[i])) + IdentitySuffix(objs[i])
  {
    PropertyLinesCount(PropertyModifier([f]), catalog, objs);
    PropertyLinesAt(PropertyModifier([f]), catalog, objs, i, 0);
  }

  // ---------------------------------------------------------------------
  // Check scheduling
  // ---------------------------------------------------------------------

  lemma Assoc(a: string, b: string, c: string)
    ensures a + b + c == a + (b + c)
  {
  }

  /** A forced check line is the unforced one with `SCHEDULE_FORCED_` in place of `SCHEDULE_`. */
  lemma ForcedDiffersOnlyInPrefix(time: int, withChilds: bool, o: Obj)
    ensures |ScheduleCheckLine(false, time, withChilds, o)| >= 9
    ensures ScheduleCheckLine(false, time, withChilds, o)[..9] == "SCHEDULE_"
    ensures ScheduleCheckLine(true, time, withChilds, o) == "SCHEDULE_FORCED_" + ScheduleCheckLine(false, time, withChilds, o)[9..]
  {
    var h, t := o.hostName, IntToString(time);
    var rest: string;
    if o.serviceDescription.Some? {
      var s := Description(o);
      rest := "SVC_CHECK;" + h + ";" + s + ";" + t;
      forall base: string ensures base + "SVC_CHECK;" + h + ";" + s + ";" + t == base + rest {
        Assoc(base, "SVC_CHECK;", h);
        Assoc(base, "SVC_CHECK;" + h, ";");
        Assoc(base, "SVC_CHECK;" + h + ";", s);
        Assoc(base, "SVC_CHECK;" + h + ";" + s, ";");
        Assoc(base, "SVC_CHECK;" + h + ";" + s + ";", t);
      }
    } else {
      var kind := if withChilds then "SVC_CHECKS" else "CHECK";
      rest := "HOST_" + kind + ";" + h + ";" + t;
      forall base: string ensures base + "HOST_" + kind + ";" + h + ";" + t == base + rest {
        Assoc(base, "HOST_", kind);
        Assoc(base, "HOST_" + kind, ";");
        Assoc(base, "HOST_" + kind + ";", h);
        Assoc(base, "HOST_" + kind + ";" + h, ";");
        Assoc(base, "HOST_" + kind + ";" + h + ";", t);
      }
    }
    assert ScheduleCheckLine(true, time, withChilds, o) == "SCHEDULE_FORCED_" + rest;
    var l := ScheduleCheckLine(false, time, withChilds, o);
    assert l == "SCHEDULE_" + rest;
    assert l[..9] == "SCHEDULE_" && l[9..] == rest;
  }

  /** For a service, `withChilds` changes nothing. */
  lemma ServiceCheckIgnoresChilds(forced: bool, time: int, o: Obj)
    requires o.serviceDescription.Some?
    ensures ScheduleCheckLine(forced, time, true, o) == ScheduleCheckLine(forced, time, false, o)
  {
  }

  // ---------------------------------------------------------------------
  // Custom notification options
  // ---------------------------------------------------------------------

  /** BROADCAST | FORCED is 3. */
  lemma BroadcastForcedIsThree()
    ensures OrAll(Commandpipe.NotifyBroadcast, [Commandpipe.NotifyForced]) == 3
  {
    assert [Commandpipe.NotifyForced][..0] == [];
    assert BitOr(0, 1) == 1;
    assert BitOr(1, 2) == 3;
  }

  /** With every option one of the three flags (or 0 first), the options value is at most 7. */
  lemma {:induction false} OptionsAtMostSeven(options: nat, more: seq<nat>)
    requires options == 0 || options == 1 || options == 2 || options == 4
    requires forall i :: 0 <= i < |more| ==> more[i] == 1 || more[i] == 2 || more[i] == 4
    ensures OrAll(options, more) <= 7
  {
    assert Pow2(3) == 8;
    OrAllBelow(options, more, 3);
  }
}
