/** store/recent.go: the bounded, newest-first ledger of recent
    transcriptions, kept as one list under the key "list" of the "recent"
    bucket. The JSON encoding of the list is modelled as the list itself. */
module Store {

  /** One stored result. CreatedAt is an opaque timestamp reading. */
  datatype Transcription = Transcription(
    id: string,
    text: string,
    duration: real,
    processingTime: real,
    createdAt: int)

  /** How many entries Add keeps: the literal 10 in Add. */
  const Capacity: nat := 10

  /** The one key the ledger is stored under. */
  const ListKey: string := "list"

  /** Whether the write transaction of Add commits. Aborted covers a
      marshalling error, a failed Put and a failed commit: bbolt then rolls
      back and the bucket keeps its previous contents. */
  datatype Commit = Committed | Aborted

  function Min(a: int, b: int): int
  {
    if a < b then a else b
  }

  /** getAll: the stored list, or the empty list when the key was never written. */
  function ReadList(bucket: map<string, seq<Transcription>>): seq<Transcription>
  {
    if ListKey in bucket then bucket[ListKey] else []
  }

  /** The list Add writes back: t in front of what was stored, cut to Capacity. */
  function Prepend(t: Transcription, existing: seq<Transcription>): (items: seq<Transcription>)
    ensures |items| == Min(|existing| + 1, Capacity)
    ensures items[0] == t
    ensures items[1..] == existing[..Min(|existing|, Capacity - 1)]
  {
    var items := [t] + existing;
    if |items| > Capacity then items[..Capacity] else items
  }

  /** The bucket holding the ledger, with the operations of store/recent.go.
      Each method is one bbolt transaction and happens atomically. */
  class RecentStore {
    var bucket: map<string, seq<Transcription>>

    /** The list GetAll returns. */
    function Ledger(): seq<Transcription>
      reads this
    {
      ReadList(bucket)
    }

    /** A freshly created "recent" bucket holds no key. */
    constructor ()
      ensures bucket == map[]
      ensures Ledger() == []
    {
      bucket := map[];
    }

    /** Add: read the stored list, put t in front, keep the first Capacity
        entries and write the list back, all in one transaction. Returns
        whether the transaction committed (Go's nil error). */
    method Add(t: Transcription, commit: Commit) returns (ok: bool)
      modifies this
      ensures ok <==> commit == Committed
      ensures ok ==> bucket == old(bucket)[ListKey := Prepend(t, old(Ledger()))]
      ensures ok ==> Ledger() == Prepend(t, old(Ledger())) && |Ledger()| <= Capacity
      ensures !ok ==> bucket == old(bucket)
    {
      var existing := ReadList(bucket);
      var items := [t] + existing;
      if |items| > Capacity {
        items := items[..Capacity];
      }
      if commit == Aborted {
        return false;
      }
      bucket := bucket[ListKey := items];
      return true;
    }

    /** GetAll: the stored list, read in a view transaction. */
    method GetAll() returns (items: seq<Transcription>)
      ensures items == Ledger()
      ensures ListKey !in bucket ==> items == []
    {
      items := ReadList(bucket);
    }
  }

  /** The ledger after the given records were added, oldest first, to an
      empty store, every Add committing. */
  function Replay(adds: seq<Transcription>): seq<Transcription>
  {
    if adds == [] then [] else Prepend(adds[|adds| - 1], Replay(adds[..|adds| - 1]))
  }

  /** The last Min(|adds|, Capacity) records added, newest first. */
  function NewestFirst(adds: seq<Transcription>): (r: seq<Transcription>)
  {
    seq(Min(|adds|, Capacity), i requires 0 <= i < Min(|adds|, Capacity) => adds[|adds| - 1 - i])
  }

  /** From an empty store, any number of Adds leave exactly the last
      Capacity records added, newest first. */
  lemma {:induction false} ReplayKeepsNewest(adds: seq<Transcription>)
    ensures Replay(adds) == NewestFirst(adds)
  {
    if adds != [] {
      var n := |adds|;
      var older := adds[..n - 1];
      ReplayKeepsNewest(older);
      var r := Replay(adds);
      var want := NewestFirst(adds);
      assert |r| == |want|;
      forall i | 0 <= i < |r|
        ensures r[i] == want[i]
      {
        if i > 0 {
          assert r[i] == r[1..][i - 1];
          assert r[i] == NewestFirst(older)[i - 1];
        }
      }
    }
  }

  /** The j-th record added stays in the ledger, behind the records added
      after it, until Capacity later records have pushed it out. */
  lemma RetainedUntilEvicted(adds: seq<Transcription>, j: int)
    requires 0 <= j < |adds|
    ensures |Replay(adds)| == Min(|adds|, Capacity)
    ensures |adds| - 1 - j < Capacity ==> Replay(adds)[|adds| - 1 - j] == adds[j]
    ensures |adds| - 1 - j >= Capacity ==> |Replay(adds)| <= |adds| - 1 - j
  {
    ReplayKeepsNewest(adds);
  }

  /** Whatever the ledger held, an Add leaves at most Capacity entries, the
      new record first and the old ones after it in their old order. */
  lemma AddKeepsOrder(t: Transcription, existing: seq<Transcription>, i: int)
    requires 0 <= i < |Prepend(t, existing)| - 1
    ensures Prepend(t, existing)[i + 1] == existing[i]
  {
    assert Prepend(t, existing)[i + 1] == Prepend(t, existing)[1..][i];
  }

  /** A record read back right after a committed Add is the one added. */
  lemma ReadBackAfterAdd(bucket: map<string, seq<Transcription>>, t: Transcription)
    ensures ReadList(bucket[ListKey := Prepend(t, ReadList(bucket))])[0] == t
  {
  }

  /** A bucket never written to reads as the empty list. */
  lemma ReadBeforeWriteIsEmpty(bucket: map<string, seq<Transcription>>)
    requires ListKey !in bucket
    ensures ReadList(bucket) == []
  {
  }
}
