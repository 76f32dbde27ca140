/**
 * The lines the command pipe sends, as functions of one monitoring
 * object and the call's parameters, and the sequences of lines a whole
 * call sends.
 */
module Encoding {
  import opened Strings
  import opened Monitoring

  // ---------------------------------------------------------------------
  // One line per object
  // ---------------------------------------------------------------------

  /** A provider's template for the object's type, filled with the host name (and service description). */
  function FilledTemplate(f: Formats, o: Obj): (r: string) {
    if o.serviceDescription.Some? then Sprintf(FormatString(f, Service), [o.hostName, Description(o)])
    else Sprintf(FormatString(f, Host), [o.hostName])
  }

  function RemoveAcknowledgeLine(o: Obj): (r: string) {
    if o.serviceDescription.Some? then "REMOVE_SVC_ACKNOWLEDGEMENT;" + o.hostName + ";" + Description(o)
    else "REMOVE_HOST_ACKNOWLEDGEMENT;" + o.hostName
  }

  /** PHP truthiness of a string: everything except "" and "0". */
  predicate Truthy(s: string) {
    s != "" && s != "0"
  }

  /** The plugin output of a passive check result, with `|perfdata` appended when perfdata is truthy. */
  function CheckOutput(output: string, perfdata: string): (r: string)
    ensures Truthy(perfdata) ==> r == output + "|" + perfdata
    ensures !Truthy(perfdata) ==> r == output
  {
    if Truthy(perfdata) then output + "|" + perfdata else output
  }

  function SubmitCheckResultLine(state: int, output: string, o: Obj): (r: string) {
    if o.serviceDescription.Some? then
      "PROCESS_SERVICE_CHECK_RESULT;" + o.hostName + ";" + Description(o) + ";" + IntToString(state) + ";" + output
    else
      "PROCESS_HOST_CHECK_RESULT;" + o.hostName + ";" + IntToString(state) + ";" + output
  }

  /** The check time actually sent: a falsy (zero) time is replaced by the current time. */
  function CheckTime(time: int, now: int): (t: int)
    ensures time != 0 ==> t == time
    ensures time == 0 ==> t == now
  {
    if time == 0 then now else time
  }

  /** The command name prefix of a (forced) check scheduling. */
  function ScheduleBase(forced: bool): (r: string) {
    if forced then "SCHEDULE_FORCED_" else "SCHEDULE_"
  }

  function ScheduleCheckLine(forced: bool, time: int, withChilds: bool, o: Obj): (r: string) {
    if o.serviceDescription.Some? then
      ScheduleBase(forced) + "SVC_CHECK;" + o.hostName + ";" + Description(o) + ";" + IntToString(time)
    else
      ScheduleBase(forced) + "HOST_" + (if withChilds then "SVC_CHECKS" else "CHECK") + ";" + o.hostName + ";" + IntToString(time)
  }

  /** `SERVICE_COMMENT` or `HOST_COMMENT`, the comment command family of the object. */
  function CommentType(o: Obj): (r: string)
    ensures r == "SERVICE_COMMENT" <==> o.serviceDescription.Some?
  {
    if o.serviceDescription.Some? then "SERVICE_COMMENT" else CommentTypesDiffer(); "HOST_COMMENT"
  }

  /** The two comment families are told apart by their names. */
  lemma CommentTypesDiffer()
    ensures "HOST_COMMENT" != "SERVICE_COMMENT"
  {
    assert |"HOST_COMMENT"| != |"SERVICE_COMMENT"|;
  }

  function RemoveCommentLine(o: Obj): (r: string) {
    match o.commentId
    case Some(id) => "DEL_" + CommentType(o) + ";" + IntToString(id)
    case None =>
      var cmd := "DEL_ALL_" + CommentType(o) + "S;" + o.hostName;
      if CommentType(o) == "SERVICE_COMMENT" then cmd + ";" + Description(o) else cmd
  }

  function RemoveDowntimeLine(starttime: int, o: Obj): (r: string) {
    var t := ObjectTypeOf(o);
    match o.downtimeId
    case Some(id) => "DEL_" + TypeName(t) + "_DOWNTIME;" + IntToString(id)
    case None =>
      var cmd := "DEL_DOWNTIME_BY_HOST_NAME;" + o.hostName;
      var cmd := if t == Service then cmd + ";" + Description(o) else cmd;
      if starttime != 0 then cmd + ";" + IntToString(starttime) else cmd
  }

  function ObsessLine(start: bool, o: Obj): (r: string) {
    var t := ObjectTypeOf(o);
    var msg := (if start then "START_OBSESSING_OVER_" else "STOP_OBSESSING_OVER_") + (if t == Service then "SVC" else "HOST");
    var msg := msg + ";" + o.hostName;
    if t == Service then msg + ";" + Description(o) else msg
  }

  function CustomNotificationLine(options: nat, comment: Comment, o: Obj): (r: string) {
    var t := ObjectTypeOf(o);
    var msg := "SEND_CUSTOM_" + (if t == Service then "SVC" else "HOST") + "_NOTIFICATION";
    var msg := msg + ";" + o.hostName;
    var msg := if t == Service then msg + ";" + Description(o) else msg;
    msg + ";" + IntToString(options) + ";" + comment.author + ";" + comment.comment
  }

  /** The four commands that act on all services of a host. */
  datatype HostWideCommand =
    | DisableServiceNotifications
    | EnableServiceNotifications
    | DisableServiceChecks
    | EnableServiceChecks

  function HostWideName(cmd: HostWideCommand): (r: string) {
    match cmd
    case DisableServiceNotifications => "DISABLE_HOST_SVC_NOTIFICATIONS"
    case EnableServiceNotifications => "ENABLE_HOST_SVC_NOTIFICATIONS"
    case DisableServiceChecks => "DISABLE_HOST_SVC_CHECKS"
    case EnableServiceChecks => "ENABLE_HOST_SVC_CHECKS"
  }

  function HostWideLine(cmd: HostWideCommand, o: Obj): (r: string) {
    match cmd
    case DisableServiceNotifications => "DISABLE_HOST_SVC_NOTIFICATIONS;" + o.hostName
    case EnableServiceNotifications => "ENABLE_HOST_SVC_NOTIFICATIONS;" + o.hostName
    case DisableServiceChecks => "DISABLE_HOST_SVC_CHECKS;" + o.hostName
    case EnableServiceChecks => "ENABLE_HOST_SVC_CHECKS;" + o.hostName
  }

  function ResetAttributesLine(o: Obj): (r: string) {
    if ObjectTypeOf(o) == Service then "CHANGE_SVC_MODATTR;" + o.hostName + ";" + Description(o) + ";0"
    else "CHANGE_HOST_MODATTR;" + o.hostName + ";0"
  }

  function DelayNotificationLine(time: int, o: Obj): (r: string) {
    if ObjectTypeOf(o) == Service then
      "DELAY_SVC_NOTIFICATION;" + o.hostName + ";" + Description(o) + ";" + IntToString(time)
    else
      "DELAY_HOST_NOTIFICATION;" + o.hostName + ";" + IntToString(time)
  }

  // ---------------------------------------------------------------------
  // Whole calls
  // ---------------------------------------------------------------------

  /** A per-object operation of the command pipe, with the parameters of the call. */
  datatype Intent =
    | Acknowledge(ack: Acknowledgement)
    | RemoveAcknowledge
    | SubmitCheckResult(state: int, output: string)
    | ScheduleCheck(forced: bool, time: int, withChilds: bool)
    | AddComment(comment: Comment)
    | RemoveComment
    | ScheduleDowntime(downtime: Downtime)
    | RemoveDowntime(starttime: int)
    | Obsess(start: bool)
    | CustomNotification(options: nat, notification: Comment)
    | HostWide(command: HostWideCommand)
    | ResetAttributes
    | DelayNotification(delay: int)

  /** The line an operation sends for one object. */
  function Line(c: Intent, o: Obj): (r: string) {
    match c
    case Acknowledge(a) => FilledTemplate(a.formats, o)
    case RemoveAcknowledge => RemoveAcknowledgeLine(o)
    case SubmitCheckResult(state, output) => SubmitCheckResultLine(state, output, o)
    case ScheduleCheck(forced, time, withChilds) => ScheduleCheckLine(forced, time, withChilds, o)
    case AddComment(comment) => FilledTemplate(comment.formats, o)
    case RemoveComment => RemoveCommentLine(o)
    case ScheduleDowntime(downtime) => FilledTemplate(downtime.formats, o)
    case RemoveDowntime(starttime) => RemoveDowntimeLine(starttime, o)
    case Obsess(start) => ObsessLine(start, o)
    case CustomNotification(options, comment) => CustomNotificationLine(options, comment, o)
    case HostWide(cmd) => HostWideLine(cmd, o)
    case ResetAttributes => ResetAttributesLine(o)
    case DelayNotification(time) => DelayNotificationLine(time, o)
  }

  /** The values of `f` on the objects, one per object, in the objects' order. */
  function Map(f: Obj -> string, objs: seq<Obj>): (r: seq<string>)
    ensures |r| == |objs|
    decreases |objs|
  {
    if |objs| == 0 then [] else Map(f, objs[..|objs| - 1]) + [f(objs[|objs| - 1])]
  }

  /** Entry i of the map is the value of `f` on object i. */
  lemma {:induction false} MapAt(f: Obj -> string, objs: seq<Obj>, i: nat)
    requires i < |objs|
    ensures Map(f, objs)[i] == f(objs[i])
    decreases |objs|
  {
    var n := |objs|;
    if i < n - 1 {
      MapAt(f, objs[..n - 1], i);
      assert objs[..n - 1][i] == objs[i];
    }
  }

  /** Mapping `a + b` maps `a`, then `b`. */
  lemma {:induction false} MapAppend(f: Obj -> string, a: seq<Obj>, b: seq<Obj>)
    ensures Map(f, a + b) == Map(f, a) + Map(f, b)
    decreases |b|
  {
    if |b| == 0 {
      assert a + b == a;
    } else {
      var init, last := b[..|b| - 1], b[|b| - 1];
      var ab := a + b;
      assert ab[..|ab| - 1] == a + init;
      assert ab[|ab| - 1] == last;
      MapAppend(f, a, init);
      var ma, mi, ml := Map(f, a), Map(f, init), [f(last)];
      assert Map(f, ab) == ma + mi + ml;
      assert Map(f, b) == mi + ml;
      assert ma + mi + ml == ma + (mi + ml);
    }
  }

  /** The lines an operation sends for a sequence of objects: one per object, in the objects' order. */
  function Lines(c: Intent, objs: seq<Obj>): (r: seq<string>)
    ensures |r| == |objs|
  {
    Map(o => Line(c, o), objs)
  }

  /** Line i of a call is the line for object i: it depends on that object and the call's parameters only. */
  lemma LinesAt(c: Intent, objs: seq<Obj>, i: nat)
    requires i < |objs|
    ensures Lines(c, objs)[i] == Line(c, objs[i])
  {
    MapAt(o => Line(c, o), objs, i);
  }

  /** A call on `a + b` sends the lines of a call on `a`, then those of a call on `b`. */
  lemma LinesAppend(c: Intent, a: seq<Obj>, b: seq<Obj>)
    ensures Lines(c, a + b) == Lines(c, a) + Lines(c, b)
  {
    MapAppend(o => Line(c, o), a, b);
  }

  /** Extending the objects by one extends the lines, after any earlier log, by that object's line. */
  lemma LinesSnoc(log: seq<string>, c: Intent, objs: seq<Obj>, i: nat)
    requires i < |objs|
    ensures log + Lines(c, objs[..i + 1]) == log + Lines(c, objs[..i]) + [Line(c, objs[i])]
  {
    assert objs[..i + 1][..i] == objs[..i];
  }

  /** The lines a property modifier yields for one object: each template followed by the object's fields. */
  function ObjectPropertyLines(pm: PropertyModifier, catalog: Catalog, o: Obj): (r: seq<string>)
    ensures |r| == |pm.flags|
  {
    var ts := Templates(pm, ObjectTypeOf(o), catalog);
    seq(|ts|, j requires 0 <= j < |ts| =>
      ts[j] + ";" + o.hostName + (if ObjectTypeOf(o) == Service then ";" + Description(o) else ""))
  }

  /** The lines of a property change over a sequence of objects: objects outside, templates inside. */
  function PropertyLines(pm: PropertyModifier, catalog: Catalog, objs: seq<Obj>): (r: seq<string>) {
    Concat(o => ObjectPropertyLines(pm, catalog, o), objs)
  }

  /** The blocks `g(o)` of the objects, concatenated in object order. */
  function Concat(g: Obj -> seq<string>, objs: seq<Obj>): (r: seq<string>)
    decreases |objs|
  {
    if |objs| == 0 then [] else Concat(g, objs[..|objs| - 1]) + g(objs[|objs| - 1])
  }

  /** Blocks of a common size k concatenate to |objs| * k lines. */
  lemma {:induction false} ConcatLength(g: Obj -> seq<string>, k: nat, objs: seq<Obj>)
    requires forall o :: |g(o)| == k
    ensures |Concat(g, objs)| == |objs| * k
    decreases |objs|
  {
    if |objs| > 0 {
      ConcatLength(g, k, objs[..|objs| - 1]);
      assert (|objs| - 1) * k + k == |objs| * k;
    }
  }

  /** For a < b, the block of multiples of k starting at a*k ends no later than b*k. */
  lemma {:induction false} MulBlock(a: nat, b: nat, k: nat)
    requires a < b
    ensures a * k + k <= b * k
    decreases b - a
  {
    if b > a + 1 {
      MulBlock(a, b - 1, k);
    }
    assert (b - 1) * k + k == b * k;
  }

  /** Where index `i * k + j` falls among n blocks of k: inside the first n - 1 blocks, or inside the last. */
  lemma BlockIndex(i: nat, j: nat, n: nat, k: nat)
    requires i < n && j < k
    ensures (n - 1) * k + k == n * k
    ensures i * k + j < n * k
    ensures i < n - 1 ==> i * k + j < (n - 1) * k
    ensures i == n - 1 ==> i * k == (n - 1) * k
  {
    MulBlock(i, n, k);
    if i < n - 1 {
      MulBlock(i, n - 1, k);
    }
  }

  /** With blocks of a common size k, line `i * k + j` is line j of object i's block. */
  lemma {:induction false} ConcatAt(g: Obj -> seq<string>, k: nat, objs: seq<Obj>, i: nat, j: nat)
    requires forall o :: |g(o)| == k
    requires i < |objs| && j < k
    ensures i * k + j < |Concat(g, objs)|
    ensures Concat(g, objs)[i * k + j] == g(objs[i])[j]
    decreases |objs|
  {
    var n := |objs|;
    var init := objs[..n - 1];
    var front := Concat(g, init);
    var back := g(objs[n - 1]);
    assert Concat(g, objs) == front + back;
    ConcatLength(g, k, init);
    BlockIndex(i, j, n, k);
    var p := i * k + j;
    if i < n - 1 {
      ConcatAt(g, k, init, i, j);
      assert init[i] == objs[i];
      assert (front + back)[p] == front[p];
    } else {
      assert p == |front| + j;
      assert (front + back)[p] == back[j];
    }
  }

  /** Extending the objects by one extends the property lines, after any earlier log, by that object's lines. */
  lemma PropertyLinesSnoc(log: seq<string>, pm: PropertyModifier, catalog: Catalog, objs: seq<Obj>, i: nat)
    requires i < |objs|
    ensures log + PropertyLines(pm, catalog, objs[..i + 1])
      == log + PropertyLines(pm, catalog, objs[..i]) + ObjectPropertyLines(pm, catalog, objs[i])
  {
    assert objs[..i + 1][..i] == objs[..i];
  }
}
