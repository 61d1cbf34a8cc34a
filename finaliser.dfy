/** What the success branch of the `after_perform` block does in its two
    loops (lines 19-32 of lib/bulk_ops/work_job.rb) and in its final
    operation check (lines 39-41), as functions of the state it starts from. */
module Finaliser {
  import opened RubyValues
  import opened Collaborators

  /** The calls of `relationship.resolve!` for `rels`, in order. */
  function ResolveEffects(rels: seq<Relationship>): seq<Effect>
  {
    if rels == [] then [] else ResolveEffects(rels[..|rels| - 1]) + [Resolved(rels[|rels| - 1])]
  }

  /** Every relationship is resolved exactly once, in declared order, and
      nothing else happens in that loop. */
  lemma {:induction false} ResolveEffectsInOrder(rels: seq<Relationship>)
    ensures |ResolveEffects(rels)| == |rels|
    ensures forall i :: 0 <= i < |rels| ==> ResolveEffects(rels)[i] == Resolved(rels[i])
  {
    if rels != [] {
      ResolveEffectsInOrder(rels[..|rels| - 1]);
    }
  }

  /** The names among `labels`. */
  function LabelSet(labels: seq<string>): set<string> {
    set i | 0 <= i < |labels| :: labels[i]
  }

  datatype Cleanup = Cleanup(remaining: set<string>, trace: seq<Effect>)

  /** The upload cleanup loop over the file-set labels: for each label, the
      uploaded file of that name, if one is still there, is destroyed; a
      destruction that raises (its name is in `failing`) is rescued and the
      file stays. `uploads` are the names on record before the loop. */
  function RunCleanup(labels: seq<string>, uploads: set<string>, failing: set<string>): (c: Cleanup)
    ensures c.remaining == uploads - (LabelSet(labels) - failing)
  {
    if labels == [] then Cleanup(uploads, [])
    else
      var prev := RunCleanup(labels[..|labels| - 1], uploads, failing);
      var name := labels[|labels| - 1];
      assert LabelSet(labels) == LabelSet(labels[..|labels| - 1]) + {name} by {
        LabelSetSnoc(labels[..|labels| - 1], name);
        assert labels == labels[..|labels| - 1] + [name];
      }
      if name !in prev.remaining then prev
      else if name in failing then Cleanup(prev.remaining, prev.trace + [DestroyFailed(name)])
      else Cleanup(prev.remaining - {name}, prev.trace + [Destroyed(name)])
  }

  lemma LabelSetSnoc(labels: seq<string>, name: string)
    ensures LabelSet(labels + [name]) == LabelSet(labels) + {name}
  {
    var s := labels + [name];
    assert s[|labels|] == name;
    forall x | x in LabelSet(labels)
      ensures x in LabelSet(s)
    {
      var i :| 0 <= i < |labels| && labels[i] == x;
      assert s[i] == x;
    }
  }

  /** Cleanup keeps exactly the files that no label names, or whose
      destruction raised: a matching file is deleted unless its own
      destruction fails, and a failure spares nothing else. */
  lemma CleanupKeepsUnmatched(labels: seq<string>, uploads: set<string>, failing: set<string>, f: string)
    requires f in uploads
    ensures f in RunCleanup(labels, uploads, failing).remaining <==> f !in LabelSet(labels) || f in failing
  {
  }

  /** Every call the cleanup makes is a destruction of an uploaded file that
      some label names; it succeeded exactly when that file is not one whose
      destruction raises. */
  lemma {:induction false} CleanupTraceSound(labels: seq<string>, uploads: set<string>, failing: set<string>)
    ensures forall e :: e in RunCleanup(labels, uploads, failing).trace ==>
              (e.Destroyed? && e.file in uploads && e.file in LabelSet(labels) && e.file !in failing)
              || (e.DestroyFailed? && e.file in uploads && e.file in LabelSet(labels) && e.file in failing)
  {
    if labels != [] {
      var init := labels[..|labels| - 1];
      CleanupTraceSound(init, uploads, failing);
      LabelSetSnoc(init, labels[|labels| - 1]);
      assert labels == init + [labels[|labels| - 1]];
    }
  }

  /** Every matching upload whose destruction does not raise is deleted, and
      no successful deletion is repeated; a file whose destruction raises sees
      one failed call per label naming it. */
  lemma {:induction false} CleanupTraceOncePerFile(labels: seq<string>, uploads: set<string>, failing: set<string>)
    ensures forall f :: f in uploads && f in LabelSet(labels) && f !in failing ==>
              Destroyed(f) in RunCleanup(labels, uploads, failing).trace
    ensures forall i, j :: 0 <= i < j < |RunCleanup(labels, uploads, failing).trace| ==>
              RunCleanup(labels, uploads, failing).trace[i] != RunCleanup(labels, uploads, failing).trace[j]
              || RunCleanup(labels, uploads, failing).trace[i].DestroyFailed?
  {
    if labels != [] {
      var init := labels[..|labels| - 1];
      var name := labels[|labels| - 1];
      CleanupTraceOncePerFile(init, uploads, failing);
      CleanupTraceSound(init, uploads, failing);
      LabelSetSnoc(init, name);
      assert labels == init + [name];
      var prev := RunCleanup(init, uploads, failing);
      if name in prev.remaining && name !in failing {
        // a file still on record has had no successful destruction yet
        assert Destroyed(name) !in prev.trace by {
          if Destroyed(name) in prev.trace {
            DestroyedIsGone(init, uploads, failing, name);
          }
        }
      }
    }
  }

  /** A successful destruction removes the file from the record. */
  lemma {:induction false} DestroyedIsGone(labels: seq<string>, uploads: set<string>, failing: set<string>, f: string)
    requires Destroyed(f) in RunCleanup(labels, uploads, failing).trace
    ensures f !in RunCleanup(labels, uploads, failing).remaining
  {
    CleanupTraceSound(labels, uploads, failing);
  }

  /** The `check_if_finished` call on the parent operation (lines 39-41). */
  function FinishCheck(operation: Option<Operation>): (t: seq<Effect>)
    ensures |t| <= 1
    ensures t != [] <==> operation.Some? && operation.value.respondsToCheckIfFinished
    ensures t != [] ==> t == [CheckedIfFinished(operation.value)]
  {
    if operation.Some? && operation.value.respondsToCheckIfFinished
    then [CheckedIfFinished(operation.value)]
    else []
  }

  /** Everything the success branch does, in order: the "complete" write
      (carrying the new work_id), each relationship, the upload cleanup, the
      hold, and the operation check. */
  function SuccessTrace(rels: seq<Relationship>, labels: seq<string>, uploads: set<string>,
                        failing: set<string>, operation: Option<Operation>): seq<Effect>
  {
    [SaveOf(Complete, Bool(false))] + ResolveEffects(rels)
    + RunCleanup(labels, uploads, failing).trace + [HoldLifted] + FinishCheck(operation)
  }

  /** Where each part of the success branch sits in its trace. */
  lemma SuccessTraceLayout(rels: seq<Relationship>, labels: seq<string>, uploads: set<string>,
                           failing: set<string>, operation: Option<Operation>)
    ensures var t := SuccessTrace(rels, labels, uploads, failing, operation);
            var c := RunCleanup(labels, uploads, failing).trace;
            var h := 1 + |rels| + |c|;
            && |t| == h + 1 + |FinishCheck(operation)|
            && t[0] == ProxySaved(Complete, None) && t[h] == HoldLifted
            && (forall i :: 0 < i <= |rels| ==> t[i] == Resolved(rels[i - 1]))
            && (forall i :: |rels| < i < h ==> t[i] == c[i - 1 - |rels|])
            && (forall i :: h < i < |t| ==> t[i] == CheckedIfFinished(operation.value))
  {
    ResolveEffectsInOrder(rels);
  }

  /** The order of the success branch: one proxy write first, then all the
      relationships, then all the upload deletions, then the hold lifted
      exactly once, then at most the operation check. */
  lemma SuccessTraceOrder(rels: seq<Relationship>, labels: seq<string>, uploads: set<string>,
                          failing: set<string>, operation: Option<Operation>)
    ensures var t := SuccessTrace(rels, labels, uploads, failing, operation);
            var h := 1 + |rels| + |RunCleanup(labels, uploads, failing).trace|;
            && h < |t| && t[0] == ProxySaved(Complete, None) && t[h] == HoldLifted
            && (forall i :: 0 < i < |t| ==> !t[i].ProxySaved?)
            && (forall i :: 0 <= i < |t| && t[i].Resolved? ==> 0 < i <= |rels|)
            && (forall i :: 0 <= i < |t| && (t[i].Destroyed? || t[i].DestroyFailed?) ==> |rels| < i < h)
            && (forall i :: 0 <= i < |t| && t[i] == HoldLifted ==> i == h)
            && (forall i :: 0 <= i < |t| && t[i].CheckedIfFinished? ==> i == h + 1)
  {
    var c := RunCleanup(labels, uploads, failing).trace;
    SuccessTraceLayout(rels, labels, uploads, failing, operation);
    CleanupTraceSound(labels, uploads, failing);
    forall k | 0 <= k < |c|
      ensures c[k].Destroyed? || c[k].DestroyFailed?
    {
      assert c[k] in c;
    }
  }
}
