/**
 * Which log list Create and Update send, and when they refuse the write
 * because no log entry is enabled (the API would accept such a write but a
 * later read would report the setting as not found).
 *
 * The 4.0 feature flag, `HasChange` results and the remote entry's logs are
 * inputs. A configured block list counts as given (`GetOk`) when it is non-empty.
 */
module WriteValidation {
  import opened Wrappers
  import opened LogSettingsCodec

  /** Some entry has Enabled set and true. */
  predicate HasEnabledEntry(logs: seq<LogSettings>) {
    exists i :: 0 <= i < |logs| && logs[i].enabled == Some(true)
  }

  /** The scan Create and Update run over a log list, stopping at the first enabled entry. */
  method AnyEnabled(logs: seq<LogSettings>) returns (valid: bool)
    ensures valid <==> HasEnabledEntry(logs)
  {
    valid := false;
    for i := 0 to |logs|
      invariant !valid
      invariant forall j :: 0 <= j < i ==> logs[j].enabled != Some(true)
    {
      var v := logs[i];
      if v.enabled.Some? && v.enabled.value {
        valid := true;
        break;
      }
    }
  }

  /** The outcome of the validity check: the logs to send, or the "no enabled log" error. */
  datatype WriteDecision = Send(logs: seq<LogSettings>) | NoEnabledLog

  /** Create: a non-empty `enabled_log` wins; otherwise `log` (only without the 4.0 flag) must contain an enabled entry. */
  function CreateDecision(fourPointOh: bool, logRaw: seq<Option<LogBlock>>, enabledRaw: seq<Option<EnabledLogBlock>>): WriteDecision
    requires !fourPointOh ==> ShapedLogs(logRaw)
  {
    if |enabledRaw| > 0 then Send(ExpandedEnabledLogs(enabledRaw))
    else if !fourPointOh && |logRaw| > 0 && HasEnabledEntry(ExpandedLogs(logRaw)) then Send(ExpandedLogs(logRaw))
    else NoEnabledLog
  }

  method CreateLogs(fourPointOh: bool, logRaw: seq<Option<LogBlock>>, enabledRaw: seq<Option<EnabledLogBlock>>)
    returns (d: WriteDecision)
    requires !fourPointOh ==> ShapedLogs(logRaw)
    ensures d == CreateDecision(fourPointOh, logRaw, enabledRaw)
  {
    var valid := false;
    var logs: seq<LogSettings> := [];
    if !fourPointOh {
      if |logRaw| > 0 {
        logs := ExpandLogs(logRaw);
        valid := AnyEnabled(logs);
      }
    }
    if |enabledRaw| > 0 {
      logs := ExpandEnabledLogs(enabledRaw);
      valid := true;
    }
    if !valid {
      return NoEnabledLog;
    }
    d := Send(logs);
  }

  /**
   * Update: a changed `log` (only without the 4.0 flag) is expanded and is valid
   * when some entry is enabled; a changed `enabled_log` is appended and is always
   * valid; when neither changed, the remote logs are resent if present and valid
   * when some entry is enabled.
   */
  function UpdateDecision(fourPointOh: bool, logChanged: bool, logRaw: seq<Option<LogBlock>>,
                          enabledChanged: bool, enabledRaw: seq<Option<EnabledLogBlock>>,
                          existing: Option<seq<LogSettings>>): WriteDecision
    requires !fourPointOh && logChanged ==> ShapedLogs(logRaw)
  {
    var fromLog := if !fourPointOh && logChanged then ExpandedLogs(logRaw) else [];
    if enabledChanged then Send(fromLog + ExpandedEnabledLogs(enabledRaw))
    else if !fourPointOh && logChanged then (if HasEnabledEntry(fromLog) then Send(fromLog) else NoEnabledLog)
    else if existing.Some? && HasEnabledEntry(existing.value) then Send(existing.value)
    else NoEnabledLog
  }

  method UpdateLogs(fourPointOh: bool, logChanged: bool, logRaw: seq<Option<LogBlock>>,
                    enabledChanged: bool, enabledRaw: seq<Option<EnabledLogBlock>>,
                    existing: Option<seq<LogSettings>>)
    returns (d: WriteDecision)
    requires !fourPointOh && logChanged ==> ShapedLogs(logRaw)
    ensures d == UpdateDecision(fourPointOh, logChanged, logRaw, enabledChanged, enabledRaw, existing)
  {
    var logs: seq<LogSettings> := [];
    var logsChanged := false;
    var valid := false;
    if !fourPointOh {
      if logChanged {
        logsChanged := true;
        logs := ExpandLogs(logRaw);
        valid := AnyEnabled(logs);
      }
    }
    if enabledChanged {
      logsChanged := true;
      var expanded := ExpandEnabledLogs(enabledRaw);
      logs := logs + expanded;
      valid := true;
    }
    if !logsChanged && existing.Some? {
      logs := existing.value;
      var found := AnyEnabled(logs);
      valid := valid || found;
    }
    if !valid {
      return NoEnabledLog;
    }
    d := Send(logs);
  }

  // ----- properties -----

  /** The expansion of `log` has an enabled entry exactly when some configured entry is enabled. */
  lemma {:induction false} ExpandedLogsEnabled(input: seq<Option<LogBlock>>)
    requires ShapedLogs(input)
    ensures HasEnabledEntry(ExpandedLogs(input)) <==> exists i :: 0 <= i < |input| && input[i].Some? && input[i].value.enabled
  {
    if HasEnabledEntry(ExpandedLogs(input)) {
      var k :| 0 <= k < |ExpandedLogs(input)| && ExpandedLogs(input)[k].enabled == Some(true);
      Seqs.FlatMapMember(ExpandLogEntry, input, ExpandedLogs(input)[k]);
    }
    if exists i :: 0 <= i < |input| && input[i].Some? && input[i].value.enabled {
      var i :| 0 <= i < |input| && input[i].Some? && input[i].value.enabled;
      var e := ExpandLogEntry(input[i])[0];
      Seqs.FlatMapMember(ExpandLogEntry, input, e);
      var k :| 0 <= k < |ExpandedLogs(input)| && ExpandedLogs(input)[k] == e;
    }
  }

  /**
   * Create refuses the write exactly when `enabled_log` is empty and either the
   * 4.0 flag is on or no configured `log` entry is enabled.
   */
  lemma CreateRejects(fourPointOh: bool, logRaw: seq<Option<LogBlock>>, enabledRaw: seq<Option<EnabledLogBlock>>)
    requires !fourPointOh ==> ShapedLogs(logRaw)
    ensures CreateDecision(fourPointOh, logRaw, enabledRaw).NoEnabledLog? <==>
      |enabledRaw| == 0 &&
      (fourPointOh || forall i :: 0 <= i < |logRaw| && logRaw[i].Some? ==> !logRaw[i].value.enabled)
  {
    if !fourPointOh {
      ExpandedLogsEnabled(logRaw);
    }
  }

  /**
   * What Create sends: the `enabled_log` expansion when that list is non-empty,
   * and in any case a list with an enabled entry, unless every `enabled_log`
   * entry was dropped by the expansion, in which case the list is empty.
   */
  lemma CreateSends(fourPointOh: bool, logRaw: seq<Option<LogBlock>>, enabledRaw: seq<Option<EnabledLogBlock>>)
    requires !fourPointOh ==> ShapedLogs(logRaw)
    ensures var d := CreateDecision(fourPointOh, logRaw, enabledRaw);
      && (|enabledRaw| > 0 ==> d == Send(ExpandedEnabledLogs(enabledRaw)))
      && (d.Send? ==> HasEnabledEntry(d.logs) ||
                      (|enabledRaw| > 0 && d.logs == [] && forall i :: 0 <= i < |enabledRaw| ==> !ExpandableEnabledLog(enabledRaw[i])))
  {
    var d := CreateDecision(fourPointOh, logRaw, enabledRaw);
    if |enabledRaw| > 0 {
      var logs := ExpandedEnabledLogs(enabledRaw);
      if logs != [] {
        ExpandedEnabledLogsAllEnabled(enabledRaw);
        assert logs[0].enabled == Some(true);
      } else {
        forall i | 0 <= i < |enabledRaw|
          ensures !ExpandableEnabledLog(enabledRaw[i])
        {
          if ExpandableEnabledLog(enabledRaw[i]) {
            ExpandedEnabledLogsMembers(enabledRaw, EnabledLogToApi(enabledRaw[i].value));
            assert false;
          }
        }
      }
    }
  }

  /**
   * Update refuses the write exactly when `enabled_log` did not change and either
   * the changed `log` has no enabled entry, or nothing changed and the remote
   * logs are absent or have no enabled entry.
   */
  lemma UpdateRejects(fourPointOh: bool, logChanged: bool, logRaw: seq<Option<LogBlock>>,
                      enabledChanged: bool, enabledRaw: seq<Option<EnabledLogBlock>>,
                      existing: Option<seq<LogSettings>>)
    requires !fourPointOh && logChanged ==> ShapedLogs(logRaw)
    ensures UpdateDecision(fourPointOh, logChanged, logRaw, enabledChanged, enabledRaw, existing).NoEnabledLog? <==>
      !enabledChanged &&
      if !fourPointOh && logChanged
      then forall i :: 0 <= i < |logRaw| && logRaw[i].Some? ==> !logRaw[i].value.enabled
      else existing.None? || !HasEnabledEntry(existing.value)
  {
    if !fourPointOh && logChanged {
      ExpandedLogsEnabled(logRaw);
    }
  }

  /**
   * What Update sends: with a changed `enabled_log`, the changed `log` expansion
   * (if any) followed by the `enabled_log` expansion; with only `log` changed,
   * its expansion; otherwise the remote list. Without a changed `enabled_log`
   * the list sent holds an enabled entry.
   */
  lemma UpdateSends(fourPointOh: bool, logChanged: bool, logRaw: seq<Option<LogBlock>>,
                    enabledChanged: bool, enabledRaw: seq<Option<EnabledLogBlock>>,
                    existing: Option<seq<LogSettings>>)
    requires !fourPointOh && logChanged ==> ShapedLogs(logRaw)
    ensures var d := UpdateDecision(fourPointOh, logChanged, logRaw, enabledChanged, enabledRaw, existing);
      && (enabledChanged ==> d.Send? && d.logs[|d.logs| - |ExpandedEnabledLogs(enabledRaw)|..] == ExpandedEnabledLogs(enabledRaw))
      && (enabledChanged && !fourPointOh && logChanged ==> d == Send(ExpandedLogs(logRaw) + ExpandedEnabledLogs(enabledRaw)))
      && (enabledChanged && (fourPointOh || !logChanged) ==> d.logs == ExpandedEnabledLogs(enabledRaw))
      && (!enabledChanged && !fourPointOh && logChanged && d.Send? ==> d.logs == ExpandedLogs(logRaw))
      && (d.Send? && !enabledChanged ==> HasEnabledEntry(d.logs))
      && (d.Send? && !enabledChanged && (fourPointOh || !logChanged) ==> existing == Some(d.logs))
  {
    var d := UpdateDecision(fourPointOh, logChanged, logRaw, enabledChanged, enabledRaw, existing);
    if enabledChanged {
      var fromLog := if !fourPointOh && logChanged then ExpandedLogs(logRaw) else [];
      assert d.logs == fromLog + ExpandedEnabledLogs(enabledRaw);
      assert d.logs[|fromLog|..] == ExpandedEnabledLogs(enabledRaw);
    }
  }

  /**
   * Writes the validity check lets through although no enabled entry is sent:
   * Create with an `enabled_log` list whose only entry is nil, and Update with a
   * changed but empty `enabled_log`. Both send an empty list.
   */
  lemma AcceptedWithoutEnabledEntry()
    ensures CreateDecision(false, [], [None]) == Send([])
    ensures UpdateDecision(true, false, [], true, [], None) == Send([])
    ensures !HasEnabledEntry([])
  {
    var raw: seq<Option<EnabledLogBlock>> := [None];
    assert raw[1..] == [];
  }
}
