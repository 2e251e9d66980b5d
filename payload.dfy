/**
 * The DiagnosticSettings payload Create and Update send, and the destination
 * fields Read takes back from the API's answer.
 */
module Payload {
  import opened Wrappers
  import opened LogSettingsCodec

  /** The configured destination strings; an unset string is empty. */
  datatype Destinations = Destinations(
    eventHubAuthorizationRuleId: string,
    eventHubName: string,
    workspaceId: string,
    storageAccountId: string)

  /** The API's diagnostic settings: every field is a pointer. */
  datatype DiagnosticSettings = DiagnosticSettings(
    logs: Option<seq<LogSettings>>,
    eventHubAuthorizationRuleId: Option<string>,
    eventHubName: Option<string>,
    workspaceId: Option<string>,
    storageAccountId: Option<string>)

  /** Set only when the configured string is non-empty. */
  function NonEmpty(s: string): Option<string> {
    if s == "" then None else Some(s)
  }

  /**
   * The payload of a write: the selected logs, each destination that is
   * configured, and the event hub name only alongside an authorization rule.
   */
  function BuildPayload(logs: seq<LogSettings>, dest: Destinations): (p: DiagnosticSettings)
    ensures p.logs == Some(logs)
    ensures p.workspaceId.Some? <==> dest.workspaceId != ""
    ensures p.workspaceId.Some? ==> p.workspaceId.value == dest.workspaceId
    ensures p.storageAccountId.Some? <==> dest.storageAccountId != ""
    ensures p.storageAccountId.Some? ==> p.storageAccountId.value == dest.storageAccountId
    ensures p.eventHubAuthorizationRuleId.Some? <==> dest.eventHubAuthorizationRuleId != ""
    ensures p.eventHubName.Some? <==> dest.eventHubAuthorizationRuleId != ""
    ensures p.eventHubAuthorizationRuleId.Some? ==>
      p.eventHubAuthorizationRuleId.value == dest.eventHubAuthorizationRuleId && p.eventHubName.value == dest.eventHubName
  {
    var withHub := dest.eventHubAuthorizationRuleId != "";
    DiagnosticSettings(
      Some(logs),
      if withHub then Some(dest.eventHubAuthorizationRuleId) else None,
      if withHub then Some(dest.eventHubName) else None,
      NonEmpty(dest.workspaceId),
      NonEmpty(dest.storageAccountId))
  }

  /**
   * Read: a resource ID that is set and non-empty is parsed and written back in
   * its canonical form (`canonical` stands for parsing and printing the ID);
   * otherwise the field reads as empty. The event hub name is taken as is.
   */
  function ReadId(id: Option<string>, canonical: string -> string): string {
    if id.Some? && id.value != "" then canonical(id.value) else ""
  }

  function ReadDestinations(p: DiagnosticSettings, canonical: string -> string): Destinations {
    Destinations(
      ReadId(p.eventHubAuthorizationRuleId, canonical),
      p.eventHubName.GetOr(""),
      ReadId(p.workspaceId, canonical),
      ReadId(p.storageAccountId, canonical))
  }

  /**
   * For resource IDs already in canonical form, reading back a written payload
   * gives the configured destinations exactly when an event hub name is only
   * given together with an authorization rule.
   */
  lemma DestinationsRoundTrip(logs: seq<LogSettings>, dest: Destinations, canonical: string -> string)
    requires dest.eventHubAuthorizationRuleId != "" ==> canonical(dest.eventHubAuthorizationRuleId) == dest.eventHubAuthorizationRuleId
    requires dest.workspaceId != "" ==> canonical(dest.workspaceId) == dest.workspaceId
    requires dest.storageAccountId != "" ==> canonical(dest.storageAccountId) == dest.storageAccountId
    ensures ReadDestinations(BuildPayload(logs, dest), canonical) == dest <==>
      (dest.eventHubAuthorizationRuleId == "" ==> dest.eventHubName == "")
  {
  }
}
