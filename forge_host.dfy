/**
 * What the plugin host hands to an action: the log collection, the variable
 * store, and the error normaliser used at every external-call boundary.
 */
module ForgeHost {

  /** A value thrown by code outside the model (the provider SDK, the uploader). */
  datatype Raised = Raised(detail: string)

  /**
   * The record the normaliser builds from a thrown value and a context string.
   * Its wording comes from a library that is not part of this model, so it is
   * kept as the pair it is built from.
   */
  datatype Diagnostic = Diagnostic(context: string, cause: Raised)

  /** Turns whatever was thrown into a diagnostic tagged with where it happened. */
  function ParseUnknownError(err: Raised, context: string): Diagnostic
  {
    Diagnostic(context, err)
  }

  /** One entry of the host's log: a plain message or a normalised error. */
  datatype LogEntry = Message(text: string) | Report(diagnostic: Diagnostic)

  /** One `{id, value}` pair passed to `variables.set`. */
  datatype VariableUpdate = VariableUpdate(id: string, value: string)

  /** The host's log collection; `Add` is `logs.add`. */
  class Logs {
    var entries: seq<LogEntry>

    constructor ()
      ensures entries == []
    {
      entries := [];
    }

    method Add(entry: LogEntry)
      modifies this
      ensures entries == old(entries) + [entry]
    {
      entries := entries + [entry];
    }
  }

  /** The host's variable store, seen as the sequence of `variables.set` calls it received. */
  class Variables {
    var writes: seq<seq<VariableUpdate>>

    constructor ()
      ensures writes == []
    {
      writes := [];
    }

    method Set(updates: seq<VariableUpdate>)
      modifies this
      ensures writes == old(writes) + [updates]
    {
      writes := writes + [updates];
    }
  }
}
