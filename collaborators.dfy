/** The records and services the job talks to, reduced to the state it reads
    and writes: the work-proxy row, the work object, the uploaded-file table,
    the attribute hash it is handed, and a log of the calls it makes. */
module Collaborators {
  import opened RubyValues

  /** The status strings of a work proxy ("pending", "starting", "running",
      "complete", "error", "job_error"); `Other` is any string some other
      writer stored. */
  datatype Status = Pending | Starting | Running | Complete | Error | JobError | Other(name: string)

  /** A work as far as the job looks at it: its id (nil until saved) and the
      labels of its file sets. */
  datatype Work = Work(id: Option<string>, fileSetLabels: seq<string>)

  /** `workClass.capitalize.constantize.new`: a fresh, unsaved object. */
  function FreshWork(): (w: Work)
    ensures w.id.None? && w.fileSetLabels == []
  {
    Work(None, [])
  }

  datatype Relationship = Relationship(id: nat)

  /** The parent operation and whether it responds to `check_if_finished`. */
  datatype Operation = Operation(id: nat, respondsToCheckIfFinished: bool)

  /** The symbol (or object) handed to `actor.send`. */
  datatype WorkAction = Update | Ingest | Declined | Built(target: Work)

  /** `if (work_action = ...)`: only `false` is falsy among these. */
  predicate ActionTruthy(a: WorkAction) {
    !a.Declined?
  }

  /** What the create/update actor does: it returns a value, and updates the
      work object it was given in place (the state it leaves is `after`),
      or it raises. */
  datatype ActorOutcome = Returns(result: Value, after: Work) | Raises

  datatype RaisedError =
    | SendTargetNotSymbol   // TypeError: `send` given an object instead of a symbol
    | ActorFailed           // the actor itself raised
    | NilProxy              // NoMethodError: `work_id=` called on nil

  /** How a job step ended: normally (including an early `return`) or by an
      exception, which skips the `after_perform` callbacks. */
  datatype Outcome = Returned | Raised(error: RaisedError)

  /** A call the job makes on something outside itself, logged in order. */
  datatype Effect =
    | ProxySaved(status: Status, message: Option<Value>)  // @work_proxy.update(atts)
    | ProxyLookup(proxyId: string)                        // BulkOps::WorkProxy.find
    | UserLookup(email: string)                           // User.find_by_email
    | Dispatched(action: WorkAction)                      // the actor runs
    | Resolved(relationship: Relationship)                // relationship.resolve!
    | Destroyed(file: string)                             // uf.destroy! succeeded
    | DestroyFailed(file: string)                         // uf.destroy! raised, rescued
    | HoldLifted                                          // @work_proxy.lift_hold
    | CheckedIfFinished(operation: Operation)             // operation.check_if_finished

  /** The effect of `update_status stat, message` on a bound proxy: the
      message goes into the saved attributes only when it is truthy. */
  function SaveOf(stat: Status, message: Value): (e: Effect)
    ensures e.ProxySaved? && e.status == stat
    ensures e.message.Some? <==> Truthy(message)
    ensures e.message.Some? ==> e.message.value == message
  {
    ProxySaved(stat, if Truthy(message) then Some(message) else None)
  }

  /** A BulkOps::WorkProxy row. */
  class WorkProxy {
    const id: string
    var status: Status
    var message: Value
    var workId: Option<string>
    var relationships: seq<Relationship>
    var hold: bool
    var operation: Option<Operation>

    constructor (id: string, status: Status, message: Value, workId: Option<string>,
                 relationships: seq<Relationship>, hold: bool, operation: Option<Operation>)
      ensures this.id == id && this.status == status && this.message == message
      ensures this.workId == workId && this.relationships == relationships
      ensures this.hold == hold && this.operation == operation
    {
      this.id := id;
      this.status := status;
      this.message := message;
      this.workId := workId;
      this.relationships := relationships;
      this.hold := hold;
      this.operation := operation;
    }

    /** `update(status: stat[, message: m])`: assigns the given attributes and
        saves; a message key that is absent leaves the stored message. */
    method Update(stat: Status, msg: Option<Value>)
      modifies this`status, this`message
      ensures status == stat
      ensures message == (if msg.Some? then msg.value else old(message))
    {
      status := stat;
      if msg.Some? {
        message := msg.value;
      }
    }

    /** `lift_hold`: removes the edit hold; with none present it does nothing. */
    method LiftHold()
      modifies this`hold
      ensures !hold
    {
      hold := false;
    }
  }

  /** The Hyrax::UploadedFile table, by the file name each record holds. */
  class UploadedFiles {
    var names: set<string>

    constructor (names: set<string>)
      ensures this.names == names
    {
      this.names := names;
    }
  }

  /** The attribute hash handed to `perform`, which it changes in place. */
  class AttributeHash {
    var entries: map<string, Value>

    constructor (entries: map<string, Value>)
      ensures this.entries == entries
    {
      this.entries := entries;
    }
  }
}
