/** The records and admissions kept by packages/decorator-agent/src/studio-journal.ts. */
module StudioRecords {
  import opened Outcomes
  import opened StudioContract

  datatype PromptAction =
    | AddAsset(selectedProductId: Id, quantity: int)
    | ReplaceAsset(selectedProductId: Id, designId: Id, targetObjectId: Id)

  datatype Admission = Admission(binding: Option<Binding>, card: Option<PromptAction>)

  datatype RecordState = StatePrepared | StateUnknown | StateCommitted | StateRejected | StateCancelled

  datatype CommandRecord = CommandRecord(command: Command, operationId: Id, state: RecordState,
                                         result: Option<CommandResult>)

  datatype JournalError = Blocked | BadRequest | Unlisted | NotStored
}
