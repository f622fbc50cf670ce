/** The append-only hash chain shared by the controller's event log and the delivery journal.
    The digest is an arbitrary function; injectivity is assumed only where a lemma says so. */
module HashChain {
  type Digest = string

  datatype Entry<C> = Entry(ordinal: int, content: C, previous: Digest, digest: Digest)

  type Hash<!C> = (int, C, Digest) -> Digest

  ghost predicate Injective<C(!new)>(hash: Hash<C>) {
    forall n, c, d, n', c', d' :: hash(n, c, d) == hash(n', c', d') ==> n == n' && c == c' && d == d'
  }

  function Head<C>(es: seq<Entry<C>>, genesis: Digest): Digest {
    if es == [] then genesis else es[|es| - 1].digest
  }

  predicate LinkedAt<C>(hash: Hash<C>, genesis: Digest, es: seq<Entry<C>>, i: nat)
    requires i < |es|
  {
    && es[i].ordinal == i + 1
    && es[i].previous == Head(es[..i], genesis)
    && es[i].digest == hash(es[i].ordinal, es[i].content, es[i].previous)
  }

  predicate Linked<C>(hash: Hash<C>, genesis: Digest, es: seq<Entry<C>>) {
    forall i :: 0 <= i < |es| ==> LinkedAt(hash, genesis, es, i)
  }

  /** An entry at i has its number, the digest of the one before it, and its own digest. */
  predicate Follows<C>(hash: Hash<C>, genesis: Digest, es: seq<Entry<C>>, i: nat)
    requires i < |es|
  {
    && es[i].ordinal == i + 1 && es[i].previous == (if i == 0 then genesis else es[i - 1].digest)
    && es[i].digest == hash(es[i].ordinal, es[i].content, es[i].previous)
  }

  lemma LinkedIff<C>(hash: Hash<C>, genesis: Digest, es: seq<Entry<C>>)
    ensures Linked(hash, genesis, es) <==> forall i :: 0 <= i < |es| ==> Follows(hash, genesis, es, i)
  {
    forall i | 0 <= i < |es| ensures LinkedAt(hash, genesis, es, i) <==> Follows(hash, genesis, es, i) {
      assert i > 0 ==> es[..i][|es[..i]| - 1] == es[i - 1];
    }
  }

  /** The entry an append creates for `content`. */
  function Next<C>(hash: Hash<C>, genesis: Digest, es: seq<Entry<C>>, content: C): Entry<C> {
    Entry(|es| + 1, content, Head(es, genesis), hash(|es| + 1, content, Head(es, genesis)))
  }

  lemma PrefixLinked<C>(hash: Hash<C>, genesis: Digest, es: seq<Entry<C>>, n: nat)
    requires Linked(hash, genesis, es) && n <= |es|
    ensures Linked(hash, genesis, es[..n])
  {
    forall i | 0 <= i < n ensures LinkedAt(hash, genesis, es[..n], i) {
      assert LinkedAt(hash, genesis, es, i);
      assert es[..n][..i] == es[..i];
    }
  }

  /** Exactly one entry with a given content extends a verified chain. */
  lemma ExtendsLinked<C>(hash: Hash<C>, genesis: Digest, es: seq<Entry<C>>, e: Entry<C>)
    requires Linked(hash, genesis, es)
    ensures Linked(hash, genesis, es + [e]) <==> e == Next(hash, genesis, es, e.content)
  {
    var fs := es + [e];
    assert fs[..|es|] == es;
    forall i | 0 <= i < |es| ensures LinkedAt(hash, genesis, fs, i) {
      assert LinkedAt(hash, genesis, es, i);
      assert fs[..i] == es[..i];
    }
    if Linked(hash, genesis, fs) {
      assert LinkedAt(hash, genesis, fs, |es|);
    }
  }

  /** Under an injective digest the head of a verified chain determines the whole chain. */
  lemma {:induction false} HeadFixesHistory<C(!new)>(hash: Hash<C>, genesis: Digest,
                                                     es: seq<Entry<C>>, fs: seq<Entry<C>>)
    requires Injective(hash)
    requires Linked(hash, genesis, es) && Linked(hash, genesis, fs)
    requires es != [] && fs != []
    requires es[|es| - 1].digest == fs[|fs| - 1].digest
    ensures es == fs
    decreases |es|
  {
    var n := |es| - 1;
    assert LinkedAt(hash, genesis, es, n) && LinkedAt(hash, genesis, fs, |fs| - 1);
    assert |fs| == n + 1;
    if n > 0 {
      PrefixLinked(hash, genesis, es, n);
      PrefixLinked(hash, genesis, fs, n);
      HeadFixesHistory(hash, genesis, es[..n], fs[..n]);
    }
    assert es == es[..n] + [es[n]] && fs == fs[..n] + [fs[n]];
  }
}
