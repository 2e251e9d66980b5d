/**
 * Conversion between the configured log blocks of the AAD diagnostic setting
 * (`log` and `enabled_log`) and the API's LogSettings records.
 *
 * Configuration side: a block list arrives as a list of possibly-nil entries;
 * each entry carries a `retention_policy` list (at most one element, which may
 * itself be nil). API side: Go pointers become Option.
 */
module LogSettingsCodec {
  import opened Wrappers
  import opened Seqs

  const MinInt32: int := -0x8000_0000
  const MaxInt32: int := 0x7fff_ffff

  type Int32 = x: int | MinInt32 <= x <= MaxInt32

  /** Go's `int32(x)` conversion: keeps the low 32 bits, read as two's complement. */
  function Int32Of(x: int): (r: Int32)
    ensures MinInt32 <= x <= MaxInt32 ==> r == x
    ensures (x - r) % 0x1_0000_0000 == 0
  {
    (x - MinInt32) % 0x1_0000_0000 + MinInt32
  }

  // ----- configuration records -----

  /** One element of a configured `retention_policy` list. */
  datatype RetentionBlock = RetentionBlock(enabled: bool, days: int)

  /** A `log` block (the deprecated form): its own `enabled` flag defaults to true in the schema. */
  datatype LogBlock = LogBlock(category: string, enabled: bool, retentionPolicy: seq<Option<RetentionBlock>>)

  /** An `enabled_log` block: it has no `enabled` key. */
  datatype EnabledLogBlock = EnabledLogBlock(category: string, retentionPolicy: seq<Option<RetentionBlock>>)

  // ----- API records -----

  datatype RetentionPolicy = RetentionPolicy(days: Option<Int32>, enabled: Option<bool>)

  datatype LogSettings = LogSettings(category: string, enabled: Option<bool>, retentionPolicy: Option<RetentionPolicy>)

  /** The retention list has a first element that is not nil. */
  predicate HasFirstPolicy(policies: seq<Option<RetentionBlock>>) {
    |policies| > 0 && policies[0].Some?
  }

  function FirstPolicy(policies: seq<Option<RetentionBlock>>): RetentionBlock
    requires HasFirstPolicy(policies)
  {
    policies[0].value
  }

  /** A configured retention policy as sent to the API. */
  function ToApiPolicy(p: RetentionBlock): RetentionPolicy {
    RetentionPolicy(Some(Int32Of(p.days)), Some(p.enabled))
  }

  // ----- expand `log` -----

  /**
   * A `log` entry the expansion can process without a run-time panic: the
   * source reads `retention_policy[0]` as a map before testing the list for
   * emptiness or nil, so a present entry needs a non-nil first policy.
   */
  predicate IndexableLog(raw: Option<LogBlock>) {
    raw.Some? ==> HasFirstPolicy(raw.value.retentionPolicy)
  }

  predicate ShapedLogs(input: seq<Option<LogBlock>>) {
    forall i :: 0 <= i < |input| ==> IndexableLog(input[i])
  }

  /** The results one `log` entry contributes: none for a nil entry, else one. */
  function ExpandLogEntry(raw: Option<LogBlock>): seq<LogSettings>
    requires IndexableLog(raw)
  {
    match raw
    case None => []
    case Some(v) => [LogSettings(v.category, Some(v.enabled), Some(ToApiPolicy(FirstPolicy(v.retentionPolicy))))]
  }

  /** Specification of expandMonitorAADDiagnosticsSettingsLogs. */
  function ExpandedLogs(input: seq<Option<LogBlock>>): seq<LogSettings>
    requires ShapedLogs(input)
  {
    FlatMap(ExpandLogEntry, input)
  }

  method ExpandLogs(input: seq<Option<LogBlock>>) returns (results: seq<LogSettings>)
    requires ShapedLogs(input)
    ensures results == ExpandedLogs(input)
  {
    results := [];
    for i := 0 to |input|
      invariant results == ExpandedLogs(input[..i])
    {
      var raw := input[i];
      FlatMapAppend(ExpandLogEntry, input[..i], [raw]);
      assert input[..i + 1] == input[..i] + [raw];
      if raw.None? {
        continue;
      }
      var v := raw.value;
      // The source reads the first policy before this test, so under
      // ShapedLogs the test never skips an entry.
      var policy := v.retentionPolicy[0].value;
      if |v.retentionPolicy| == 0 || v.retentionPolicy[0].None? {
        continue;
      }
      var output := LogSettings(v.category, Some(v.enabled),
                                Some(RetentionPolicy(Some(Int32Of(policy.days)), Some(policy.enabled))));
      results := results + [output];
    }
    assert input[..|input|] == input;
  }

  // ----- expand `enabled_log` -----

  /** An `enabled_log` entry that the expansion keeps. */
  predicate ExpandableEnabledLog(raw: Option<EnabledLogBlock>) {
    raw.Some? && HasFirstPolicy(raw.value.retentionPolicy)
  }

  /** A kept `enabled_log` entry as sent to the API: always enabled. */
  function EnabledLogToApi(v: EnabledLogBlock): LogSettings
    requires HasFirstPolicy(v.retentionPolicy)
  {
    LogSettings(v.category, Some(true), Some(ToApiPolicy(FirstPolicy(v.retentionPolicy))))
  }

  function ExpandEnabledLogEntry(raw: Option<EnabledLogBlock>): seq<LogSettings> {
    if ExpandableEnabledLog(raw) then [EnabledLogToApi(raw.value)] else []
  }

  /** Specification of expandMonitorAADDiagnosticsSettingsEnabledLogs. */
  function ExpandedEnabledLogs(input: seq<Option<EnabledLogBlock>>): seq<LogSettings> {
    FlatMap(ExpandEnabledLogEntry, input)
  }

  method ExpandEnabledLogs(input: seq<Option<EnabledLogBlock>>) returns (results: seq<LogSettings>)
    ensures results == ExpandedEnabledLogs(input)
  {
    results := [];
    for i := 0 to |input|
      invariant results == ExpandedEnabledLogs(input[..i])
    {
      var raw := input[i];
      FlatMapAppend(ExpandEnabledLogEntry, input[..i], [raw]);
      assert input[..i + 1] == input[..i] + [raw];
      if raw.None? {
        continue;
      }
      var v := raw.value;
      if |v.retentionPolicy| == 0 || v.retentionPolicy[0].None? {
        continue;
      }
      var policy := v.retentionPolicy[0].value;
      var output := LogSettings(v.category, Some(true),
                                Some(RetentionPolicy(Some(Int32Of(policy.days)), Some(policy.enabled))));
      results := results + [output];
    }
    assert input[..|input|] == input;
  }

  // ----- flatten -----

  /** A present API retention policy becomes a one-element list; nil fields read as false / 0. */
  function FlattenPolicy(p: Option<RetentionPolicy>): seq<Option<RetentionBlock>> {
    match p
    case None => []
    case Some(rp) => [Some(RetentionBlock(rp.enabled.GetOr(false), rp.days.GetOr(0)))]
  }

  function FlattenLogEntry(v: LogSettings): seq<LogBlock> {
    [LogBlock(v.category, v.enabled.GetOr(false), FlattenPolicy(v.retentionPolicy))]
  }

  /** Specification of flattenMonitorAADDiagnosticLogs. */
  function FlattenedLogs(input: Option<seq<LogSettings>>): seq<LogBlock> {
    match input
    case None => []
    case Some(s) => FlatMap(FlattenLogEntry, s)
  }

  method FlattenLogs(input: Option<seq<LogSettings>>) returns (results: seq<LogBlock>)
    ensures results == FlattenedLogs(input)
  {
    results := [];
    if input.None? {
      return;
    }
    var s := input.value;
    for i := 0 to |s|
      invariant results == FlatMap(FlattenLogEntry, s[..i])
    {
      var v := s[i];
      FlatMapAppend(FlattenLogEntry, s[..i], [v]);
      assert s[..i + 1] == s[..i] + [v];
      var policies: seq<Option<RetentionBlock>> := [];
      if v.retentionPolicy.Some? {
        var rp := v.retentionPolicy.value;
        policies := policies + [Some(RetentionBlock(rp.enabled.GetOr(false), rp.days.GetOr(0)))];
      }
      assert policies == FlattenPolicy(v.retentionPolicy);
      results := results + [LogBlock(v.category, v.enabled.GetOr(false), policies)];
    }
    assert s[..|s|] == s;
  }

  /** An API entry that appears under `enabled_log`: its Enabled is set and true. */
  predicate IsEnabled(v: LogSettings) {
    v.enabled.GetOr(false)
  }

  function FlattenEnabledLogEntry(v: LogSettings): seq<EnabledLogBlock> {
    if IsEnabled(v) then [EnabledLogBlock(v.category, FlattenPolicy(v.retentionPolicy))] else []
  }

  /** Specification of flattenMonitorAADDiagnosticEnabledLogs. */
  function FlattenedEnabledLogs(input: Option<seq<LogSettings>>): seq<EnabledLogBlock> {
    match input
    case None => []
    case Some(s) => FlatMap(FlattenEnabledLogEntry, s)
  }

  method FlattenEnabledLogs(input: Option<seq<LogSettings>>) returns (results: seq<EnabledLogBlock>)
    ensures results == FlattenedEnabledLogs(input)
  {
    results := [];
    if input.None? {
      return;
    }
    var s := input.value;
    for i := 0 to |s|
      invariant results == FlatMap(FlattenEnabledLogEntry, s[..i])
    {
      var v := s[i];
      FlatMapAppend(FlattenEnabledLogEntry, s[..i], [v]);
      assert s[..i + 1] == s[..i] + [v];
      var enabled := v.enabled.GetOr(false);
      if !enabled {
        continue;
      }
      var policies: seq<Option<RetentionBlock>> := [];
      if v.retentionPolicy.Some? {
        var rp := v.retentionPolicy.value;
        policies := policies + [Some(RetentionBlock(rp.enabled.GetOr(false), rp.days.GetOr(0)))];
      }
      assert policies == FlattenPolicy(v.retentionPolicy);
      results := results + [EnabledLogBlock(v.category, policies)];
    }
    assert s[..|s|] == s;
  }

  // ----- properties -----

  /** The configuration list with no nil entries. */
  function Present<T>(s: seq<T>): (r: seq<Option<T>>)
    ensures |r| == |s|
    ensures forall i :: 0 <= i < |s| ==> r[i] == Some(s[i])
  {
    if s == [] then [] else [Some(s[0])] + Present(s[1..])
  }

  /** The expansion of `enabled_log` keeps the input order: a prefix's results come first. */
  lemma ExpandedEnabledLogsAppend(a: seq<Option<EnabledLogBlock>>, b: seq<Option<EnabledLogBlock>>)
    ensures ExpandedEnabledLogs(a + b) == ExpandedEnabledLogs(a) + ExpandedEnabledLogs(b)
  {
    FlatMapAppend(ExpandEnabledLogEntry, a, b);
  }

  /**
   * An API entry is produced from `enabled_log` exactly when some non-nil input
   * entry with a non-nil first retention policy carries its category, retention
   * days (as int32) and retention flag; and it is always enabled. Nil entries
   * and entries whose retention list is empty or starts with nil are skipped.
   */
  lemma ExpandedEnabledLogsMembers(input: seq<Option<EnabledLogBlock>>, e: LogSettings)
    ensures e in ExpandedEnabledLogs(input) <==>
      exists i :: 0 <= i < |input| && input[i].Some? && HasFirstPolicy(input[i].value.retentionPolicy) &&
        e == LogSettings(input[i].value.category, Some(true),
                         Some(RetentionPolicy(Some(Int32Of(FirstPolicy(input[i].value.retentionPolicy).days)),
                                              Some(FirstPolicy(input[i].value.retentionPolicy).enabled))))
  {
    FlatMapMember(ExpandEnabledLogEntry, input, e);
  }

  /** Every entry the expansion of `enabled_log` sends is enabled and has a retention policy. */
  lemma ExpandedEnabledLogsAllEnabled(input: seq<Option<EnabledLogBlock>>)
    ensures forall k :: 0 <= k < |ExpandedEnabledLogs(input)| ==>
      ExpandedEnabledLogs(input)[k].enabled == Some(true) && ExpandedEnabledLogs(input)[k].retentionPolicy.Some?
  {
    forall k | 0 <= k < |ExpandedEnabledLogs(input)|
      ensures ExpandedEnabledLogs(input)[k].enabled == Some(true) && ExpandedEnabledLogs(input)[k].retentionPolicy.Some?
    {
      ExpandedEnabledLogsMembers(input, ExpandedEnabledLogs(input)[k]);
    }
  }

  /** The expansion of `log` keeps the input order. */
  lemma ExpandedLogsAppend(a: seq<Option<LogBlock>>, b: seq<Option<LogBlock>>)
    requires ShapedLogs(a) && ShapedLogs(b)
    ensures ShapedLogs(a + b)
    ensures ExpandedLogs(a + b) == ExpandedLogs(a) + ExpandedLogs(b)
  {
    FlatMapAppend(ExpandLogEntry, a, b);
  }

  /**
   * Without nil entries, the expansion of `log` yields exactly one API entry per
   * configured entry, in order, carrying its category, its own enabled flag and
   * its first retention policy: the emptiness test after the indexing never skips.
   */
  lemma ExpandedLogsPresent(c: seq<LogBlock>)
    requires forall i :: 0 <= i < |c| ==> HasFirstPolicy(c[i].retentionPolicy)
    ensures ShapedLogs(Present(c))
    ensures |ExpandedLogs(Present(c))| == |c|
    ensures forall i :: 0 <= i < |c| ==>
      ExpandedLogs(Present(c))[i] == LogSettings(c[i].category, Some(c[i].enabled), Some(ToApiPolicy(FirstPolicy(c[i].retentionPolicy))))
  {
    assert ShapedLogs(Present(c));
    FlatMapSingletons(ExpandLogEntry, Present(c));
  }

  /** A nil `log` input flattens to an empty list; otherwise one block per API entry, in order. */
  lemma FlattenedLogsShape(input: Option<seq<LogSettings>>)
    ensures input.None? ==> FlattenedLogs(input) == []
    ensures input.Some? ==> |FlattenedLogs(input)| == |input.value|
    ensures input.Some? ==> forall i :: 0 <= i < |input.value| ==>
      var v, b := input.value[i], FlattenedLogs(input)[i];
      && b.category == v.category
      && b.enabled == (v.enabled == Some(true))
      && |b.retentionPolicy| == (if v.retentionPolicy.Some? then 1 else 0)
      && (v.retentionPolicy.Some? ==>
            b.retentionPolicy[0] == Some(RetentionBlock(v.retentionPolicy.value.enabled == Some(true),
                                                        if v.retentionPolicy.value.days.Some? then v.retentionPolicy.value.days.value else 0)))
  {
    if input.Some? {
      FlatMapSingletons(FlattenLogEntry, input.value);
    }
  }

  /** The flattening of `enabled_log` keeps the input order. */
  lemma FlattenedEnabledLogsAppend(a: seq<LogSettings>, b: seq<LogSettings>)
    ensures FlattenedEnabledLogs(Some(a + b)) == FlattenedEnabledLogs(Some(a)) + FlattenedEnabledLogs(Some(b))
  {
    FlatMapAppend(FlattenEnabledLogEntry, a, b);
  }

  /**
   * A block appears under `enabled_log` exactly when some API entry whose Enabled
   * is set and true (nil counts as false) carries its category and retention policy.
   */
  lemma FlattenedEnabledLogsMembers(s: seq<LogSettings>, b: EnabledLogBlock)
    ensures b in FlattenedEnabledLogs(Some(s)) <==>
      exists i :: 0 <= i < |s| && s[i].enabled == Some(true) &&
        b == EnabledLogBlock(s[i].category, FlattenPolicy(s[i].retentionPolicy))
  {
    FlatMapMember(FlattenEnabledLogEntry, s, b);
  }

  /** A configured block that survives a write and a read unchanged. */
  predicate WellFormedPolicies(policies: seq<Option<RetentionBlock>>) {
    |policies| == 1 && policies[0].Some? && MinInt32 <= policies[0].value.days <= MaxInt32
  }

  /** An API retention policy with every field set. */
  predicate CompletePolicy(p: Option<RetentionPolicy>) {
    p.Some? && p.value.days.Some? && p.value.enabled.Some?
  }

  /** Reading back what `enabled_log` wrote gives the configuration again. */
  lemma {:induction false} EnabledLogsRoundTrip(c: seq<EnabledLogBlock>)
    requires forall i :: 0 <= i < |c| ==> WellFormedPolicies(c[i].retentionPolicy)
    ensures FlattenedEnabledLogs(Some(ExpandedEnabledLogs(Present(c)))) == c
  {
    if c != [] {
      EnabledLogsRoundTrip(c[1..]);
      var rest := ExpandedEnabledLogs(Present(c[1..]));
      assert Present(c)[1..] == Present(c[1..]);
      var e := EnabledLogToApi(c[0]);
      assert ExpandedEnabledLogs(Present(c)) == [e] + rest;
      assert ([e] + rest)[1..] == rest;
      assert c[0].retentionPolicy == [c[0].retentionPolicy[0]];
      assert FlattenPolicy(e.retentionPolicy) == c[0].retentionPolicy;
    }
  }

  /** Reading back what `log` wrote gives the configuration again. */
  lemma {:induction false} LogsRoundTrip(c: seq<LogBlock>)
    requires forall i :: 0 <= i < |c| ==> WellFormedPolicies(c[i].retentionPolicy)
    ensures ShapedLogs(Present(c))
    ensures FlattenedLogs(Some(ExpandedLogs(Present(c)))) == c
  {
    if c != [] {
      LogsRoundTrip(c[1..]);
      var rest := ExpandedLogs(Present(c[1..]));
      assert Present(c)[1..] == Present(c[1..]);
      var e := LogSettings(c[0].category, Some(c[0].enabled), Some(ToApiPolicy(FirstPolicy(c[0].retentionPolicy))));
      assert ExpandedLogs(Present(c)) == [e] + rest;
      assert ([e] + rest)[1..] == rest;
      assert c[0].retentionPolicy == [c[0].retentionPolicy[0]];
      assert FlattenPolicy(e.retentionPolicy) == c[0].retentionPolicy;
    }
  }

  /** Expanding what the read produced under `enabled_log` gives back API entries that are enabled and complete. */
  lemma {:induction false} ApiEnabledLogsRoundTrip(s: seq<LogSettings>)
    requires forall i :: 0 <= i < |s| ==> s[i].enabled == Some(true) && CompletePolicy(s[i].retentionPolicy)
    ensures ExpandedEnabledLogs(Present(FlattenedEnabledLogs(Some(s)))) == s
  {
    if s != [] {
      ApiEnabledLogsRoundTrip(s[1..]);
      var rest := FlattenedEnabledLogs(Some(s[1..]));
      var b := EnabledLogBlock(s[0].category, FlattenPolicy(s[0].retentionPolicy));
      assert FlattenedEnabledLogs(Some(s)) == [b] + rest;
      assert Present([b] + rest)[1..] == Present(rest);
      assert ExpandEnabledLogEntry(Some(b)) == [s[0]];
    }
  }

  /** Expanding what the read produced under `log` gives back API entries whose fields are all set. */
  lemma {:induction false} ApiLogsRoundTrip(s: seq<LogSettings>)
    requires forall i :: 0 <= i < |s| ==> s[i].enabled.Some? && CompletePolicy(s[i].retentionPolicy)
    ensures ShapedLogs(Present(FlattenedLogs(Some(s))))
    ensures ExpandedLogs(Present(FlattenedLogs(Some(s)))) == s
  {
    if s != [] {
      ApiLogsRoundTrip(s[1..]);
      var rest := FlattenedLogs(Some(s[1..]));
      var b := LogBlock(s[0].category, s[0].enabled.value, FlattenPolicy(s[0].retentionPolicy));
      assert FlattenedLogs(Some(s)) == [b] + rest;
      assert Present([b] + rest)[1..] == Present(rest);
      assert ExpandLogEntry(Some(b)) == [s[0]];
    }
  }
}
