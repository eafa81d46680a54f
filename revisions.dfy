/** The two revisions of the scan and coercion helpers side by side: db.go's
    `scanVariable`/`typeAssertion`, used by the executor, and util.go's
    `scanVariables`/`typeAssertion`, used by the server. */
module Revisions {
  import opened Wrappers
  import opened Driver
  import opened Reflection
  import Db
  import Util

  /** The scan plans of the two revisions agree on every destination; only
      the wording of their errors differs. */
  lemma PlansAgree(shape: Kind, columnsLen: nat, isRows: bool)
    ensures PlanFor(Db.Messages, shape, columnsLen, isRows).Success? <==>
      PlanFor(Util.Messages, shape, columnsLen, isRows).Success?
    ensures PlanFor(Db.Messages, shape, columnsLen, isRows).Success? ==>
      PlanFor(Db.Messages, shape, columnsLen, isRows) == PlanFor(Util.Messages, shape, columnsLen, isRows)
    ensures PlanFor(Db.Messages, shape, columnsLen, isRows).Failure? ==>
      PlanFor(Db.Messages, shape, columnsLen, isRows).error != PlanFor(Util.Messages, shape, columnsLen, isRows).error
  {
  }

  /** The two coercions agree except on `[]byte`, which db.go turns into a
      string, and on nil and `[]rune`, which db.go blanks and util.go keeps. */
  lemma CoercionsAgree(v: Value)
    ensures Db.TypeAssertion(v) == Util.TypeAssertion(v) <==> !(v.Bytes? || v.Nil? || v.Runes?)
    ensures v.Bytes? ==> Db.TypeAssertion(v) == Text(v.data) && Util.TypeAssertion(v) == v
  {
  }

  /** Coercing with util.go's revision first changes nothing db.go's does. */
  lemma CoercionsCompose(v: Value)
    ensures Db.TypeAssertion(Util.TypeAssertion(v)) == Db.TypeAssertion(v)
  {
  }
}
