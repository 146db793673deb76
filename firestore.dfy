/**
 * A Firestore document reference as the handler uses it: `ref.update(fields)` merges
 * the given top-level fields into the stored document in one atomic write.
 */
module Firestore {
  import opened Wrappers
  import opened JsValues

  /** How the store answers one write: it commits it, or rejects it with an error. */
  datatype WriteReply = Committed | Rejected(error: Thrown)

  /** The document after an update: the patch's fields replace or add, the others stay. */
  function Merge(fields: Record, patch: Record): (r: Record)
    ensures r.Keys == fields.Keys + patch.Keys
    ensures forall k :: k in patch ==> r[k] == patch[k]
    ensures forall k :: k in fields && k !in patch ==> r[k] == fields[k]
  {
    fields + patch
  }

  /** The document after a series of committed updates, oldest first. */
  function MergeAll(fields: Record, patches: seq<Record>): (r: Record)
    ensures patches == [] ==> r == fields
    ensures |patches| == 1 ==> r == Merge(fields, patches[0])
    decreases patches
  {
    if patches == [] then fields else MergeAll(Merge(fields, patches[0]), patches[1..])
  }

  /** Committing one more update merges it into the document the earlier ones produced. */
  lemma {:induction false} MergeAllAppend(fields: Record, patches: seq<Record>, patch: Record)
    ensures MergeAll(fields, patches + [patch]) == Merge(MergeAll(fields, patches), patch)
    decreases patches
  {
    if patches != [] {
      assert (patches + [patch])[1..] == patches[1..] + [patch];
      MergeAllAppend(Merge(fields, patches[0]), patches[1..], patch);
    }
  }

  class DocumentRef {
    /** The stored fields of the document. */
    var fields: Record
    /** Every update committed to this document so far, oldest first. */
    var updates: seq<Record>
    /** The fields the document was created with. */
    ghost var initial: Record

    /** The stored fields are the created ones with every committed update merged in, in order. */
    ghost predicate Valid()
      reads this
    {
      fields == MergeAll(initial, updates)
    }

    constructor (init: Record)
      ensures Valid()
      ensures fields == init && updates == [] && initial == init
    {
      fields := init;
      updates := [];
      initial := init;
    }

    /**
     * `ref.update(patch)`, with the store's answer given as `reply`: a committed write
     * merges the patch and is logged; a rejected one changes nothing and is thrown.
     */
    method Update(patch: Record, reply: WriteReply) returns (thrown: Option<Thrown>)
      requires Valid()
      modifies this
      ensures Valid() && initial == old(initial)
      ensures reply.Committed? ==>
        fields == Merge(old(fields), patch) && updates == old(updates) + [patch] && thrown == None
      ensures reply.Rejected? ==>
        fields == old(fields) && updates == old(updates) && thrown == Some(reply.error)
    {
      match reply
      case Committed =>
        MergeAllAppend(initial, updates, patch);
        fields := Merge(fields, patch);
        updates := updates + [patch];
        thrown := None;
      case Rejected(e) =>
        thrown := Some(e);
    }
  }
}
