/** What packages/decorator-agent/src/studio-broker.ts demands of a reply before it believes it. */
module StudioReplies {
  import opened Outcomes
  import opened StudioContract

  /** The reported outcome has the form its edit calls for. */
  predicate OutcomeMatches(action: Action, result: EditResult)
  {
    if action.Creates() then
      result.Instances? && |result.created| == action.quantity
    else
      result.Edited? && (action.Remove? <==> result.after.None?)
  }

  /** `validateStudioSnapshot` */
  predicate NamesRoom(s: Snapshot)
  {
    s.designId != "" && s.revision != ""
  }

  /** Why the broker refuses a result for `command` that comes from a Studio showing `designId`. */
  function RefuseResult(designId: Id, command: Command, result: CommandResult): Option<ErrorCode>
  {
    if command.commandId != result.commandId then
      Some(WrongBinding)
    else if result.Saved? then
      var edits, results := command.payload.Edits(), result.evidence.Results();
      if result.snapshot.designId != designId then
        Some(WrongBinding)
      else if command.payload.Batch? != result.evidence.BatchResults? || |results| != |edits|
              || exists i | 0 <= i < |results| :: !OutcomeMatches(edits[i].action, results[i]) then
        Some(InvalidArguments)
      else if !NamesRoom(result.snapshot) || result.revision != result.snapshot.revision then
        Some(InvalidArguments)
      else
        None
    else
      None
  }
}
