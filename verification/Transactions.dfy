/** User transactions, and when replaying what one recorded is as good as running it again. */
module Transactions {
  import opened Basics
  import opened Changesets

  /** It changes rows, not their width. */
  ghost predicate KeepsShape(f: Database -> Option<Database>) {
    forall d :: f(d).Some? ==> SameShape(d, f(d).value)
  }

  function AlwaysFails(d: Database): Option<Database> {
    None
  }

  /** A user transaction: the database it leaves, or None for an error. */
  type Transaction = f: Database -> Option<Database> | KeepsShape(f) witness AlwaysFails

  /** On the database it ran on, the transaction depended only on the cells it wrote: wherever the
      recorded before-images hold, it succeeds and records the same changeset. */
  ghost predicate WriteLocalAt(fn: Transaction, d: Database) {
    && fn(d).Some?
    && forall e :: Applicable(e, Diff(d, fn(d).value)) ==>
         fn(e).Some? && Diff(e, fn(e).value) == Diff(d, fn(d).value)
  }

  /** On one other database: replaying the recorded changeset equals running the transaction there
      exactly when the transaction would record the same changeset there. */
  lemma ReplayIsRerunAt(fn: Transaction, cs: Changeset, e: Database)
    requires Minimal(cs) && Apply(e, cs).Some?
    ensures Apply(e, cs) == fn(e) <==> fn(e).Some? && Diff(e, fn(e).value) == cs
  {
    ReplayRecaptures(e, cs);
    if fn(e).Some? {
      CaptureReplays(e, fn(e).value);
    }
  }

  /** The exact condition for replay to be as good as running again: everywhere the changeset
      recorded on `d` applies, it does what the transaction does, if and only if the transaction
      depended on `d` only through the cells it wrote. */
  lemma ReplayIsRerun(fn: Transaction, d: Database)
    requires fn(d).Some?
    ensures var cs := Diff(d, fn(d).value);
            WriteLocalAt(fn, d) <==> forall e :: Apply(e, cs).Some? ==> Apply(e, cs) == fn(e)
  {
    var cs := Diff(d, fn(d).value);
    CaptureReplays(d, fn(d).value);
    forall e | Apply(e, cs).Some?
      ensures Apply(e, cs) == fn(e) <==> fn(e).Some? && Diff(e, fn(e).value) == cs
    {
      ReplayIsRerunAt(fn, cs, e);
    }
    forall e ensures Apply(e, cs).Some? <==> Applicable(e, cs) {
      ApplyRows(e, cs);
    }
  }
}
