/** The content-addressed skeleton cache against the plain extraction. */
module SkeletonCache {
  import opened Languages
  import opened Text

  datatype Call = Call(source: string, lang: Language)

  datatype Key = Key(lang: Language, hash: nat)

  datatype Entry<R> = Entry(result: R, length: nat, head: string)

  /** The first 64 characters. */
  function Head(source: string): string {
    if |source| <= 64 then source else source[..64]
  }

  function Made<R>(c: Call, extract: Call -> R): Entry<R> {
    Entry(extract(c), ByteLength(c.source), Head(c.source))
  }

  /** The check on a cached entry before it is used. */
  predicate Fits<R>(e: Entry<R>, source: string) {
    e.length == ByteLength(source) && e.head <= source
  }

  datatype Outcome = Hit | Miss | Stale

  function KeyOf(hash: string -> nat, c: Call): Key {
    Key(c.lang, hash(c.source))
  }

  function Judged<R>(entries: map<Key, Entry<R>>, hash: string -> nat, c: Call): Outcome {
    var k := KeyOf(hash, c);
    if k !in entries then Miss else if Fits(entries[k], c.source) then Hit else Stale
  }

  function Answer<R>(entries: map<Key, Entry<R>>, hash: string -> nat, extract: Call -> R, c: Call): R {
    if Judged(entries, hash, c) == Hit then entries[KeyOf(hash, c)].result else extract(c)
  }

  function After<R>(entries: map<Key, Entry<R>>, hash: string -> nat, extract: Call -> R, c: Call): map<Key, Entry<R>> {
    if Judged(entries, hash, c) == Hit then entries else entries[KeyOf(hash, c) := Made(c, extract)]
  }

  /** The cache after a run of calls on a new one. */
  ghost function Entries<R>(calls: seq<Call>, hash: string -> nat, extract: Call -> R): map<Key, Entry<R>> {
    if calls == [] then map[]
    else After(Entries(calls[..|calls| - 1], hash, extract), hash, extract, calls[|calls| - 1])
  }

  /** The answer to the call after a run. */
  ghost function Reply<R>(calls: seq<Call>, hash: string -> nat, extract: Call -> R, c: Call): R {
    Answer(Entries(calls, hash, extract), hash, extract, c)
  }

  ghost function CountOf<R>(calls: seq<Call>, hash: string -> nat, extract: Call -> R, o: Outcome): nat {
    if calls == [] then 0
    else
      var rest, c := calls[..|calls| - 1], calls[|calls| - 1];
      CountOf(rest, hash, extract, o) + if Judged(Entries(rest, hash, extract), hash, c) == o then 1 else 0
  }

  // -------------------------------------------------------------- transparency

  /** Two sources the cache cannot tell apart, although their skeletons differ. */
  predicate Confused<R(==)>(hash: string -> nat, extract: Call -> R, a: Call, b: Call) {
    && a.lang == b.lang && hash(a.source) == hash(b.source) && ByteLength(a.source) == ByteLength(b.source)
    && Head(a.source) <= b.source && extract(a) != extract(b)
  }

  ghost predicate FromRun<R>(e: Entry<R>, k: Key, calls: seq<Call>, hash: string -> nat, extract: Call -> R, i: nat) {
    i < |calls| && KeyOf(hash, calls[i]) == k && e == Made(calls[i], extract)
  }

  /** Every entry was made by a call of the run under its key. */
  lemma {:induction false} EntryMade<R>(calls: seq<Call>, hash: string -> nat, extract: Call -> R, k: Key) returns (i: nat)
    requires k in Entries(calls, hash, extract)
    ensures FromRun(Entries(calls, hash, extract)[k], k, calls, hash, extract, i)
  {
    var rest, c := calls[..|calls| - 1], calls[|calls| - 1];
    if Judged(Entries(rest, hash, extract), hash, c) != Hit && k == KeyOf(hash, c) {
      i := |calls| - 1;
    } else {
      i := EntryMade(rest, hash, extract, k);
      assert rest[i] == calls[i];
    }
  }

  /** The reply is the fresh extraction, unless an earlier call is confused with this one. */
  lemma ReplyFresh<R>(calls: seq<Call>, hash: string -> nat, extract: Call -> R, c: Call)
    requires forall i :: 0 <= i < |calls| ==> !Confused(hash, extract, calls[i], c)
    ensures Reply(calls, hash, extract, c) == extract(c)
  {
    var entries := Entries(calls, hash, extract);
    if Judged(entries, hash, c) == Hit {
      var i := EntryMade(calls, hash, extract, KeyOf(hash, c));
    }
  }

  ghost predicate Transparent<R(!new)>(hash: string -> nat, extract: Call -> R) {
    forall calls: seq<Call>, c: Call :: Reply(calls, hash, extract, c) == extract(c)
  }

  ghost predicate Unconfused<R(!new)>(hash: string -> nat, extract: Call -> R) {
    forall a: Call, b: Call :: !Confused(hash, extract, a, b)
  }

  lemma ConfusedReply<R>(hash: string -> nat, extract: Call -> R, a: Call, b: Call)
    requires Confused(hash, extract, a, b)
    ensures Reply([a], hash, extract, b) == extract(a) != extract(b)
  {
    assert [a][..0] == [];
    assert Entries([a], hash, extract) == map[KeyOf(hash, a) := Made(a, extract)];
  }

  /** The cache is invisible over all runs exactly when no two sources are confused. */
  lemma TransparentIff<R(!new)>(hash: string -> nat, extract: Call -> R)
    ensures Transparent(hash, extract) <==> Unconfused(hash, extract)
  {
    if Unconfused(hash, extract) {
      forall calls: seq<Call>, c: Call
        ensures Reply(calls, hash, extract, c) == extract(c)
      {
        ReplyFresh(calls, hash, extract, c);
      }
    }
    if Transparent(hash, extract) {
      forall a: Call, b: Call
        ensures !Confused(hash, extract, a, b)
      {
        if Confused(hash, extract, a, b) {
          ConfusedReply(hash, extract, a, b);
        }
      }
    }
  }

  /** Every call is counted exactly once. */
  lemma {:induction false} CountsAddUp<R>(calls: seq<Call>, hash: string -> nat, extract: Call -> R)
    ensures CountOf(calls, hash, extract, Hit) + CountOf(calls, hash, extract, Miss) + CountOf(calls, hash, extract, Stale) == |calls|
  {
    if calls != [] {
      CountsAddUp(calls[..|calls| - 1], hash, extract);
    }
  }

  /** Sources of at most 64 characters are never confused: their head is the whole source. */
  lemma ShortNeverConfused<R>(hash: string -> nat, extract: Call -> R, a: Call, b: Call)
    requires |a.source| <= 64
    ensures !Confused(hash, extract, a, b)
  {
    if a.lang == b.lang && ByteLength(a.source) == ByteLength(b.source) && a.source <= b.source {
      PrefixSameLength(a.source, b.source);
    }
  }

  lemma {:induction false} PrefixSameLength(a: string, b: string)
    requires a <= b && ByteLength(a) == ByteLength(b)
    ensures a == b
  {
    if a == [] {
      assert b == [] || ByteLength(b) >= 1;
    } else {
      assert a[1..] <= b[1..];
      PrefixSameLength(a[1..], b[1..]);
      assert a == [a[0]] + a[1..] && b == [b[0]] + b[1..];
    }
  }

  class Cache<R> {
    var entries: map<Key, Entry<R>>
    var hits: nat
    var misses: nat
    var staleHits: nat
    const hash: string -> nat
    const extract: Call -> R
    ghost var calls: seq<Call>

    ghost predicate Valid()
      reads this
    {
      && entries == Entries(calls, hash, extract)
      && hits == CountOf(calls, hash, extract, Hit)
      && misses == CountOf(calls, hash, extract, Miss)
      && staleHits == CountOf(calls, hash, extract, Stale)
    }

    constructor (hash: string -> nat, extract: Call -> R)
      ensures Valid() && calls == [] && this.hash == hash && this.extract == extract
    {
      this.hash, this.extract := hash, extract;
      entries, hits, misses, staleHits, calls := map[], 0, 0, 0, [];
    }

    method GetOrExtract(source: string, lang: Language) returns (result: R)
      requires Valid()
      modifies this
      ensures Valid() && calls == old(calls) + [Call(source, lang)]
      ensures hits + misses + staleHits == |calls|
      ensures result == Reply(old(calls), hash, extract, Call(source, lang))
      ensures (forall i :: 0 <= i < |old(calls)| ==> !Confused(hash, extract, old(calls)[i], Call(source, lang))) ==>
        result == extract(Call(source, lang))
    {
      var c := Call(source, lang);
      var key := KeyOf(hash, c);
      ghost var before := calls;
      assert (before + [c])[..|before|] == before;
      CountsAddUp(before + [c], hash, extract);
      if forall i :: 0 <= i < |before| ==> !Confused(hash, extract, before[i], c) {
        ReplyFresh(before, hash, extract, c);
      }
      calls := calls + [c];
      if key in entries {
        var entry := entries[key];
        if entry.length != ByteLength(source) || !(entry.head <= source) {
          staleHits := staleHits + 1;
          result := extract(c);
          entries := entries[key := Entry(result, ByteLength(source), Head(source))];
        } else {
          hits := hits + 1;
          result := entry.result;
        }
      } else {
        misses := misses + 1;
        result := extract(c);
        entries := entries[key := Entry(result, ByteLength(source), Head(source))];
      }
    }
  }
}
