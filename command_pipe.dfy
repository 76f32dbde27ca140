/**
 * The command pipe of one monitoring instance: it turns monitoring
 * intents into external-command lines and hands each line to its
 * transport. The transport is write-only, so what it has been given so
 * far, `sent`, is the whole observable effect of a call.
 */
module Commandpipe {
  import opened Strings
  import opened Bits
  import opened Monitoring
  import opened Encoding

  /** Notification option: notify all normal and escalated contacts. */
  const NotifyBroadcast: nat := 1
  /** Notification option: notify regardless of time and of disabled notifications. */
  const NotifyForced: nat := 2
  /** Notification option: increment the current notification number. */
  const NotifyIncrement: nat := 4

  /** The options value of a custom notification: the first option OR-ed with each further one, in order. */
  method NotificationOptions(options: nat, more: seq<nat>) returns (combined: nat)
    ensures combined == OrAll(options, more)
  {
    combined := options;
    for i := 0 to |more|
      invariant combined == OrAll(options, more[..i])
    {
      assert more[..i + 1][..i] == more[..i];
      combined := BitOr(combined, more[i]);
    }
    assert more[..|more|] == more;
  }

  class CommandPipe {
    /** The instance name from the configuration. */
    var name: string
    /** The delivery channel chosen from the configuration. */
    var transport: Transport
    /** Every line handed to the transport so far, oldest first. */
    var sent: seq<string>

    /** A command pipe for the configured instance, with the transport its configuration selects. */
    constructor (config: Config)
      ensures transport == TransportFor(config)
      ensures name == config.name
      ensures sent == []
    {
      transport := TransportFor(config);
      name := config.name;
      sent := [];
    }

    /** Hand one command line (without timestamp) to the transport. */
    method Send(command: string)
      modifies this`sent
      ensures sent == old(sent) + [command]
    {
      sent := sent + [command];
    }

    /** Acknowledge the problems of the objects; a plain comment is first wrapped into an acknowledgement by `wrap`. */
    method Acknowledge(objects: seq<Obj>, acknowledgementOrComment: AcknowledgementOrComment, wrap: Comment -> Acknowledgement)
      modifies this`sent
      ensures sent == old(sent) + Lines(Intent.Acknowledge(AsAcknowledgement(acknowledgementOrComment, wrap)), objects)
    {
      var ack := match acknowledgementOrComment
        case PlainComment(c) => wrap(c)
        case Ack(a) => a;
      for i := 0 to |objects|
        invariant sent == old(sent) + Lines(Intent.Acknowledge(AsAcknowledgement(acknowledgementOrComment, wrap)), objects[..i])
      {
        var obj := objects[i];
        LinesSnoc(old(sent), Intent.Acknowledge(AsAcknowledgement(acknowledgementOrComment, wrap)), objects, i);
        Send(FilledTemplate(ack.formats, obj));
      }
      assert objects[..|objects|] == objects;
    }

    /** Remove the acknowledgements of the objects. */
    method RemoveAcknowledge(objects: seq<Obj>)
      modifies this`sent
      ensures sent == old(sent) + Lines(Intent.RemoveAcknowledge, objects)
    {
      for i := 0 to |objects|
        invariant sent == old(sent) + Lines(Intent.RemoveAcknowledge, objects[..i])
      {
        var obj := objects[i];
        LinesSnoc(old(sent), Intent.RemoveAcknowledge, objects, i);
        Send(RemoveAcknowledgeLine(obj));
      }
      assert objects[..|objects|] == objects;
    }

    /** Submit one passive check result for every object; truthy perfdata is appended to the output after `|`. */
    method SubmitCheckResult(objects: seq<Obj>, state: int, output: string, perfdata: string)
      modifies this`sent
      ensures sent == old(sent) + Lines(Intent.SubmitCheckResult(state, CheckOutput(output, perfdata)), objects)
    {
      var checkOutput := output;
      if Truthy(perfdata) {
        checkOutput := output + "|" + perfdata;
      }
      assert checkOutput == CheckOutput(output, perfdata);
      for i := 0 to |objects|
        invariant sent == old(sent) + Lines(Intent.SubmitCheckResult(state, CheckOutput(output, perfdata)), objects[..i])
      {
        var obj := objects[i];
        LinesSnoc(old(sent), Intent.SubmitCheckResult(state, CheckOutput(output, perfdata)), objects, i);
        Send(SubmitCheckResultLine(state, checkOutput, obj));
      }
      assert objects[..|objects|] == objects;
    }

    /** Schedule a forced check of every object at `time`, or at `now` when `time` is falsy (0). */
    method ScheduleForcedCheck(objects: seq<Obj>, time: int, withChilds: bool, now: int)
      modifies this`sent
      ensures sent == old(sent) + Lines(Intent.ScheduleCheck(true, CheckTime(time, now), withChilds), objects)
    {
      var checkTime := time;
      if checkTime == 0 {
        checkTime := now;
      }
      for i := 0 to |objects|
        invariant sent == old(sent) + Lines(Intent.ScheduleCheck(true, CheckTime(time, now), withChilds), objects[..i])
      {
        var obj := objects[i];
        LinesSnoc(old(sent), Intent.ScheduleCheck(true, CheckTime(time, now), withChilds), objects, i);
        Send(ScheduleCheckLine(true, checkTime, withChilds, obj));
      }
      assert objects[..|objects|] == objects;
    }

    /** Schedule a check of every object at `time`, or at `now` when `time` is falsy (0). */
    method ScheduleCheck(objects: seq<Obj>, time: int, withChilds: bool, now: int)
      modifies this`sent
      ensures sent == old(sent) + Lines(Intent.ScheduleCheck(false, CheckTime(time, now), withChilds), objects)
    {
      var checkTime := time;
      if checkTime == 0 {
        checkTime := now;
      }
      for i := 0 to |objects|
        invariant sent == old(sent) + Lines(Intent.ScheduleCheck(false, CheckTime(time, now), withChilds), objects[..i])
      {
        var obj := objects[i];
        LinesSnoc(old(sent), Intent.ScheduleCheck(false, CheckTime(time, now), withChilds), objects, i);
        Send(ScheduleCheckLine(false, checkTime, withChilds, obj));
      }
      assert objects[..|objects|] == objects;
    }

    /** Add the comment to every object. */
    method AddComment(objects: seq<Obj>, comment: Comment)
      modifies this`sent
      ensures sent == old(sent) + Lines(Intent.AddComment(comment), objects)
    {
      for i := 0 to |objects|
        invariant sent == old(sent) + Lines(Intent.AddComment(comment), objects[..i])
      {
        var obj := objects[i];
        LinesSnoc(old(sent), Intent.AddComment(comment), objects, i);
        Send(FilledTemplate(comment.formats, obj));
      }
      assert objects[..|objects|] == objects;
    }

    /** Remove a comment by its id, or all comments of an object that carries no comment id. */
    method RemoveComment(objects: seq<Obj>)
      modifies this`sent
      ensures sent == old(sent) + Lines(Intent.RemoveComment, objects)
    {
      for i := 0 to |objects|
        invariant sent == old(sent) + Lines(Intent.RemoveComment, objects[..i])
      {
        var obj := objects[i];
        LinesSnoc(old(sent), Intent.RemoveComment, objects, i);
        var commentType := if obj.serviceDescription.Some? then "SERVICE_COMMENT" else "HOST_COMMENT";
        var cmd: string;
        if obj.commentId.Some? {
          cmd := "DEL_" + commentType + ";" + IntToString(obj.commentId.value);
        } else {
          cmd := "DEL_ALL_" + commentType + "S;" + obj.hostName;
          CommentTypesDiffer();
          if commentType == "SERVICE_COMMENT" {
            cmd := cmd + ";" + Description(obj);
          }
        }
        assert cmd == RemoveCommentLine(obj);
        Send(cmd);
      }
      assert objects[..|objects|] == objects;
    }

    /** Enable notifications for the whole instance. */
    method EnableGlobalNotifications()
      modifies this`sent
      ensures sent == old(sent) + ["ENABLE_NOTIFICATIONS"]
    {
      Send("ENABLE_NOTIFICATIONS");
    }

    /** Disable notifications for the whole instance. */
    method DisableGlobalNotifications()
      modifies this`sent
      ensures sent == old(sent) + ["DISABLE_NOTIFICATIONS"]
    {
      Send("DISABLE_NOTIFICATIONS");
    }

    /** Schedule the downtime for every object. */
    method ScheduleDowntime(objects: seq<Obj>, downtime: Downtime)
      modifies this`sent
      ensures sent == old(sent) + Lines(Intent.ScheduleDowntime(downtime), objects)
    {
      for i := 0 to |objects|
        invariant sent == old(sent) + Lines(Intent.ScheduleDowntime(downtime), objects[..i])
      {
        var obj := objects[i];
        LinesSnoc(old(sent), Intent.ScheduleDowntime(downtime), objects, i);
        Send(FilledTemplate(downtime.formats, obj));
      }
      assert objects[..|objects|] == objects;
    }

    /** Remove a downtime by its id, or the downtimes of an object that carries no downtime id (those starting at `starttime` when it is not 0). */
    method RemoveDowntime(objects: seq<Obj>, starttime: int)
      modifies this`sent
      ensures sent == old(sent) + Lines(Intent.RemoveDowntime(starttime), objects)
    {
      for i := 0 to |objects|
        invariant sent == old(sent) + Lines(Intent.RemoveDowntime(starttime), objects[..i])
      {
        var obj := objects[i];
        LinesSnoc(old(sent), Intent.RemoveDowntime(starttime), objects, i);
        var objectType := ObjectTypeOf(obj);
        var cmd: string;
        if obj.downtimeId.Some? {
          cmd := "DEL_" + TypeName(objectType) + "_DOWNTIME;" + IntToString(obj.downtimeId.value);
        } else {
          cmd := "DEL_DOWNTIME_BY_HOST_NAME;" + obj.hostName;
          if objectType == Service {
            cmd := cmd + ";" + Description(obj);
          }
          if starttime != 0 {
            cmd := cmd + ";" + IntToString(starttime);
          }
        }
        assert cmd == RemoveDowntimeLine(starttime, obj);
        Send(cmd);
      }
      assert objects[..|objects|] == objects;
    }

    /** Restart the monitoring process. */
    method RestartIcinga()
      modifies this`sent
      ensures sent == old(sent) + ["RESTART_PROCESS"]
    {
      Send("RESTART_PROCESS");
    }

    /**
     * Send the modifier's templates for every object: objects in order and,
     * for each obj, its type's templates in order, each followed by the
     * obj's fields.
     */
    method SetMonitoringProperties(objects: seq<Obj>, flags: PropertyModifier, catalog: Catalog)
      modifies this`sent
      ensures sent == old(sent) + PropertyLines(flags, catalog, objects)
    {
      for i := 0 to |objects|
        invariant sent == old(sent) + PropertyLines(flags, catalog, objects[..i])
      {
        var obj := objects[i];
        var objectType := ObjectTypeOf(obj);
        var formatArray := Templates(flags, objectType, catalog);
        ghost var before := sent;
        ghost var lines := ObjectPropertyLines(flags, catalog, obj);
        for j := 0 to |formatArray|
          invariant sent == before + lines[..j]
        {
          var format := formatArray[j];
          format := format + ";" + obj.hostName + (if objectType == Service then ";" + Description(obj) else "");
          assert format == lines[j];
          Send(format);
          assert lines[..j + 1] == lines[..j] + [lines[j]];
        }
        assert lines[..|formatArray|] == lines;
        PropertyLinesSnoc(old(sent), flags, catalog, objects, i);
      }
      assert objects[..|objects|] == objects;
    }

    /** Enable active checks of the objects. */
    method EnableActiveChecks(objects: seq<Obj>, catalog: Catalog)
      modifies this`sent
      ensures sent == old(sent) + PropertyLines(PropertyModifier([Flag(Active, Enable)]), catalog, objects)
    {
      SetMonitoringProperties(objects, PropertyModifier([Flag(Active, Enable)]), catalog);
    }

    /** Disable active checks of the objects. */
    method DisableActiveChecks(objects: seq<Obj>, catalog: Catalog)
      modifies this`sent
      ensures sent == old(sent) + PropertyLines(PropertyModifier([Flag(Active, Disable)]), catalog, objects)
    {
      SetMonitoringProperties(objects, PropertyModifier([Flag(Active, Disable)]), catalog);
    }

    /** Enable passive checks of the objects. */
    method EnablePassiveChecks(objects: seq<Obj>, catalog: Catalog)
      modifies this`sent
      ensures sent == old(sent) + PropertyLines(PropertyModifier([Flag(Passive, Enable)]), catalog, objects)
    {
      SetMonitoringProperties(objects, PropertyModifier([Flag(Passive, Enable)]), catalog);
    }

    /** Disable passive checks of the objects. */
    method DisablePassiveChecks(objects: seq<Obj>, catalog: Catalog)
      modifies this`sent
      ensures sent == old(sent) + PropertyLines(PropertyModifier([Flag(Passive, Disable)]), catalog, objects)
    {
      SetMonitoringProperties(objects, PropertyModifier([Flag(Passive, Disable)]), catalog);
    }

    /** Enable flap detection of the objects. */
    method EnableFlappingDetection(objects: seq<Obj>, catalog: Catalog)
      modifies this`sent
      ensures sent == old(sent) + PropertyLines(PropertyModifier([Flag(Flapping, Enable)]), catalog, objects)
    {
      SetMonitoringProperties(objects, PropertyModifier([Flag(Flapping, Enable)]), catalog);
    }

    /** Disable flap detection of the objects. */
    method DisableFlappingDetection(objects: seq<Obj>, catalog: Catalog)
      modifies this`sent
      ensures sent == old(sent) + PropertyLines(PropertyModifier([Flag(Flapping, Disable)]), catalog, objects)
    {
      SetMonitoringProperties(objects, PropertyModifier([Flag(Flapping, Disable)]), catalog);
    }

    /** Enable notifications of the objects. */
    method EnableNotifications(objects: seq<Obj>, catalog: Catalog)
      modifies this`sent
      ensures sent == old(sent) + PropertyLines(PropertyModifier([Flag(Notifications, Enable)]), catalog, objects)
    {
      SetMonitoringProperties(objects, PropertyModifier([Flag(Notifications, Enable)]), catalog);
    }

    /** Disable notifications of the objects. */
    method DisableNotifications(objects: seq<Obj>, catalog: Catalog)
      modifies this`sent
      ensures sent == old(sent) + PropertyLines(PropertyModifier([Flag(Notifications, Disable)]), catalog, objects)
    {
      SetMonitoringProperties(objects, PropertyModifier([Flag(Notifications, Disable)]), catalog);
    }

    /** Enable freshness checks of the objects. */
    method EnableFreshnessChecks(objects: seq<Obj>, catalog: Catalog)
      modifies this`sent
      ensures sent == old(sent) + PropertyLines(PropertyModifier([Flag(Freshness, Enable)]), catalog, objects)
    {
      SetMonitoringProperties(objects, PropertyModifier([Flag(Freshness, Enable)]), catalog);
    }

    /** Disable freshness checks of the objects. */
    method DisableFreshnessChecks(objects: seq<Obj>, catalog: Catalog)
      modifies this`sent
      ensures sent == old(sent) + PropertyLines(PropertyModifier([Flag(Freshness, Disable)]), catalog, objects)
    {
      SetMonitoringProperties(objects, PropertyModifier([Flag(Freshness, Disable)]), catalog);
    }

    /** Enable the event handler of the objects. */
    method EnableEventHandler(objects: seq<Obj>, catalog: Catalog)
      modifies this`sent
      ensures sent == old(sent) + PropertyLines(PropertyModifier([Flag(EventHandler, Enable)]), catalog, objects)
    {
      SetMonitoringProperties(objects, PropertyModifier([Flag(EventHandler, Enable)]), catalog);
    }

    /** Disable the event handler of the objects. */
    method DisableEventHandler(objects: seq<Obj>, catalog: Catalog)
      modifies this`sent
      ensures sent == old(sent) + PropertyLines(PropertyModifier([Flag(EventHandler, Disable)]), catalog, objects)
    {
      SetMonitoringProperties(objects, PropertyModifier([Flag(EventHandler, Disable)]), catalog);
    }

    /** Enable performance data processing of the objects. */
    method EnablePerfdata(objects: seq<Obj>, catalog: Catalog)
      modifies this`sent
      ensures sent == old(sent) + PropertyLines(PropertyModifier([Flag(Perfdata, Enable)]), catalog, objects)
    {
      SetMonitoringProperties(objects, PropertyModifier([Flag(Perfdata, Enable)]), catalog);
    }

    /** Disable performance data processing of the objects. */
    method DisablePerfdata(objects: seq<Obj>, catalog: Catalog)
      modifies this`sent
      ensures sent == old(sent) + PropertyLines(PropertyModifier([Flag(Perfdata, Disable)]), catalog, objects)
    {
      SetMonitoringProperties(objects, PropertyModifier([Flag(Perfdata, Disable)]), catalog);
    }

    /** Start obsessing over the objects. */
    method StartObsessing(objects: seq<Obj>)
      modifies this`sent
      ensures sent == old(sent) + Lines(Intent.Obsess(true), objects)
    {
      for i := 0 to |objects|
        invariant sent == old(sent) + Lines(Intent.Obsess(true), objects[..i])
      {
        var obj := objects[i];
        LinesSnoc(old(sent), Intent.Obsess(true), objects, i);
        var objectType := ObjectTypeOf(obj);
        var msg := "START_OBSESSING_OVER_" + (if objectType == Service then "SVC" else "HOST");
        msg := msg + ";" + obj.hostName;
        if objectType == Service {
          msg := msg + ";" + Description(obj);
        }
        assert msg == ObsessLine(true, obj);
        Send(msg);
      }
      assert objects[..|objects|] == objects;
    }

    /** Stop obsessing over the objects. */
    method StopObsessing(objects: seq<Obj>)
      modifies this`sent
      ensures sent == old(sent) + Lines(Intent.Obsess(false), objects)
    {
      for i := 0 to |objects|
        invariant sent == old(sent) + Lines(Intent.Obsess(false), objects[..i])
      {
        var obj := objects[i];
        LinesSnoc(old(sent), Intent.Obsess(false), objects, i);
        var objectType := ObjectTypeOf(obj);
        var msg := "STOP_OBSESSING_OVER_" + (if objectType == Service then "SVC" else "HOST");
        msg := msg + ";" + obj.hostName;
        if objectType == Service {
          msg := msg + ";" + Description(obj);
        }
        assert msg == ObsessLine(false, obj);
        Send(msg);
      }
      assert objects[..|objects|] == objects;
    }

    /** Send a custom notification about every object, with `options` OR-ed with each of `moreOptions` as the options value. */
    method SendCustomNotification(objects: seq<Obj>, comment: Comment, options: nat, moreOptions: seq<nat>)
      modifies this`sent
      ensures sent == old(sent) + Lines(Intent.CustomNotification(OrAll(options, moreOptions), comment), objects)
    {
      var optionsVarList := NotificationOptions(options, moreOptions);
      for i := 0 to |objects|
        invariant sent == old(sent) + Lines(Intent.CustomNotification(OrAll(options, moreOptions), comment), objects[..i])
      {
        var obj := objects[i];
        LinesSnoc(old(sent), Intent.CustomNotification(OrAll(options, moreOptions), comment), objects, i);
        var objectType := ObjectTypeOf(obj);
        var msg := "SEND_CUSTOM_" + (if objectType == Service then "SVC" else "HOST") + "_NOTIFICATION";
        msg := msg + ";" + obj.hostName;
        if objectType == Service {
          msg := msg + ";" + Description(obj);
        }
        msg := msg + ";" + IntToString(optionsVarList);
        msg := msg + ";" + comment.author;
        msg := msg + ";" + comment.comment;
        assert msg == CustomNotificationLine(optionsVarList, comment, obj);
        Send(msg);
      }
      assert objects[..|objects|] == objects;
    }

    /** Disable notifications for all services of the given hosts. */
    method DisableNotificationsForServices(objects: seq<Obj>)
      modifies this`sent
      ensures sent == old(sent) + Lines(Intent.HostWide(DisableServiceNotifications), objects)
    {
      for i := 0 to |objects|
        invariant sent == old(sent) + Lines(Intent.HostWide(DisableServiceNotifications), objects[..i])
      {
        var obj := objects[i];
        LinesSnoc(old(sent), Intent.HostWide(DisableServiceNotifications), objects, i);
        Send(HostWideLine(DisableServiceNotifications, obj));
      }
      assert objects[..|objects|] == objects;
    }

    /** Enable notifications for all services of the given hosts. */
    method EnableNotificationsForServices(objects: seq<Obj>)
      modifies this`sent
      ensures sent == old(sent) + Lines(Intent.HostWide(EnableServiceNotifications), objects)
    {
      for i := 0 to |objects|
        invariant sent == old(sent) + Lines(Intent.HostWide(EnableServiceNotifications), objects[..i])
      {
        var obj := objects[i];
        LinesSnoc(old(sent), Intent.HostWide(EnableServiceNotifications), objects, i);
        Send(HostWideLine(EnableServiceNotifications, obj));
      }
      assert objects[..|objects|] == objects;
    }

    /** Disable active checks of all services of the given hosts. */
    method DisableActiveChecksWithChildren(objects: seq<Obj>)
      modifies this`sent
      ensures sent == old(sent) + Lines(Intent.HostWide(DisableServiceChecks), objects)
    {
      for i := 0 to |objects|
        invariant sent == old(sent) + Lines(Intent.HostWide(DisableServiceChecks), objects[..i])
      {
        var obj := objects[i];
        LinesSnoc(old(sent), Intent.HostWide(DisableServiceChecks), objects, i);
        Send(HostWideLine(DisableServiceChecks, obj));
      }
      assert objects[..|objects|] == objects;
    }

    /** Enable active checks of all services of the given hosts. */
    method EnableActiveChecksWithChildren(objects: seq<Obj>)
      modifies this`sent
      ensures sent == old(sent) + Lines(Intent.HostWide(EnableServiceChecks), objects)
    {
      for i := 0 to |objects|
        invariant sent == old(sent) + Lines(Intent.HostWide(EnableServiceChecks), objects[..i])
      {
        var obj := objects[i];
        LinesSnoc(old(sent), Intent.HostWide(EnableServiceChecks), objects, i);
        Send(HostWideLine(EnableServiceChecks, obj));
      }
      assert objects[..|objects|] == objects;
    }

    /** Reset the modified attributes of the objects. */
    method ResetAttributes(objects: seq<Obj>)
      modifies this`sent
      ensures sent == old(sent) + Lines(Intent.ResetAttributes, objects)
    {
      for i := 0 to |objects|
        invariant sent == old(sent) + Lines(Intent.ResetAttributes, objects[..i])
      {
        var obj := objects[i];
        LinesSnoc(old(sent), Intent.ResetAttributes, objects, i);
        Send(ResetAttributesLine(obj));
      }
      assert objects[..|objects|] == objects;
    }

    /** Delay the next notification of the objects by `time` seconds. */
    method DelayNotification(objects: seq<Obj>, time: int)
      modifies this`sent
      ensures sent == old(sent) + Lines(Intent.DelayNotification(time), objects)
    {
      for i := 0 to |objects|
        invariant sent == old(sent) + Lines(Intent.DelayNotification(time), objects[..i])
      {
        var obj := objects[i];
        LinesSnoc(old(sent), Intent.DelayNotification(time), objects, i);
        Send(DelayNotificationLine(time, obj));
      }
      assert objects[..|objects|] == objects;
    }

    /** The transport that delivers the lines. */
    method GetTransport() returns (t: Transport)
      ensures t == transport
    {
      t := transport;
    }
  }
}
