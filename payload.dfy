/**
 * The trigger message of the three scheduler functions (`parsePayload`)
 * and the two entry points each function exports.
 *
 * Base64 and JSON decoding are not modelled: the decoder's outcome is an
 * input, either the decoded message or the decoder's error text. The
 * provider's default project (`getProjectId`) is an input as well.
 */
module Payload {
  import opened Common

  /** The decoded JSON `{ project?, zones?, labels? }`. */
  datatype Message = Message(
    project: Option<string>,
    zones: Option<seq<string>>,
    labels: Option<Entries>)

  /** A message whose project is known. */
  datatype Request = Request(
    project: string,
    zones: Option<seq<string>>,
    labels: Option<Entries>)

  /** The two Cloud Functions each resource kind deploys. */
  datatype Action = StartInstances | StopInstances

  /** Prefix of the error thrown for an undecodable message. */
  const InvalidMessage: string := "Invalid Pub/Sub message: "

  /**
   * `!xs || xs.length === 0` (and, for labels,
   * `Object.keys(labels).length === 0`): the field places no restriction.
   */
  predicate Unrestricted<T>(xs: Option<seq<T>>)
  {
    xs.None? || |xs.value| == 0
  }

  /** `!payload.project`: the project is absent or the empty string. */
  predicate MissingProject(m: Message)
  {
    m.project.None? || m.project.value == ""
  }

  /**
   * `parsePayload`: a decoding failure becomes the "Invalid Pub/Sub
   * message" error; a missing project is filled in with the ambient one;
   * zones and labels pass through untouched.
   */
  function ParsePayload(decoded: Result<Message>, ambientProject: string): (r: Result<Request>)
    ensures r.Err? <==> decoded.Err?
    ensures decoded.Err? ==> r.error == InvalidMessage + decoded.error
    ensures decoded.Ok? ==>
              && r.value.zones == decoded.value.zones
              && r.value.labels == decoded.value.labels
              && (!MissingProject(decoded.value) ==> r.value.project == decoded.value.project.value)
              && (MissingProject(decoded.value) ==> r.value.project == ambientProject)
    ensures r.Ok? && ambientProject != "" ==> r.value.project != ""
  {
    match decoded
    case Err(e) => Err(InvalidMessage + e)
    case Ok(m) =>
      var project := if MissingProject(m) then ambientProject else m.project.value;
      Ok(Request(project, m.zones, m.labels))
  }
}
