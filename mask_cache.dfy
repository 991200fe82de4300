/** Selection of the generator's saturation, the cache key, and the memoised mask store. */
module MaskCache {
  import opened Images

  /** The saturation part of a cache key: "BW" in grayscale mode, the saturation otherwise. */
  datatype SatTag = BW | Saturation(value: real)

  /** Everything a cached mask is filed under: (width, height, saturation-or-BW, size, gauss, seed). */
  datatype Key = Key(width: int, height: int, sat: SatTag, size: real, gauss: int, seed: int)

  /** The arguments handed to the grain generator. A negative saturation asks it for a grayscale mask. */
  datatype GenArgs = GenArgs(width: int, height: int, size: real, gauss: int, sat: real, seed: int)

  /** One mask request: the key it is filed under and the generator call that produces it. */
  datatype Request = Request(key: Key, args: GenArgs)

  /** The saturation the generator is called with for a key. */
  function GeneratorSaturation(s: SatTag): real {
    match s
    case BW => -1.0
    case Saturation(v) => v
  }

  /** Recovers the generator call from the key alone. */
  function ArgsOf(k: Key): GenArgs {
    GenArgs(k.width, k.height, k.size, k.gauss, GeneratorSaturation(k.sat), k.seed)
  }

  /** The key and generator call for a request with the given parameters. */
  function MakeRequest(width: int, height: int, saturation: real, grayscale: bool,
                       size: real, gauss: int, seed: int): Request
  {
    var (tag, sat) := if grayscale then (BW, -1.0) else (Saturation(saturation), saturation);
    Request(Key(width, height, tag, size, gauss, seed), GenArgs(width, height, size, gauss, sat, seed))
  }

  /** Grayscale ignores the saturation passed in: the key says BW and the generator gets -1.0.
      Colour mode files the mask under the given saturation and generates with it. */
  lemma SaturationSelection(width: int, height: int, saturation: real, grayscale: bool,
                            size: real, gauss: int, seed: int)
    ensures var q := MakeRequest(width, height, saturation, grayscale, size, gauss, seed);
      if grayscale then q.key.sat == BW && q.args.sat == -1.0
      else q.key.sat == Saturation(saturation) && q.args.sat == saturation
    ensures var q := MakeRequest(width, height, saturation, grayscale, size, gauss, seed);
      q.key == Key(width, height, q.key.sat, size, gauss, seed)
      && q.args == GenArgs(width, height, size, gauss, q.args.sat, seed)
  {
  }

  /** The key determines the generator call, so reusing a mask stored under a key is sound. */
  lemma KeyDeterminesGeneration(w1: int, h1: int, s1: real, g1: bool, z1: real, a1: int, e1: int,
                                w2: int, h2: int, s2: real, g2: bool, z2: real, a2: int, e2: int)
    ensures MakeRequest(w1, h1, s1, g1, z1, a1, e1).args == ArgsOf(MakeRequest(w1, h1, s1, g1, z1, a1, e1).key)
    ensures MakeRequest(w1, h1, s1, g1, z1, a1, e1).key == MakeRequest(w2, h2, s2, g2, z2, a2, e2).key
        ==> MakeRequest(w1, h1, s1, g1, z1, a1, e1).args == MakeRequest(w2, h2, s2, g2, z2, a2, e2).args
  {
  }

  /** Memoised lookup: a stored mask is returned unchanged; on a miss the generated mask
      is stored under the key and returned. Yields the mask and the new store. */
  function Fetch(store: map<Key, Mask>, gen: GenArgs -> Mask, q: Request): (Mask, map<Key, Mask>) {
    if q.key in store then (store[q.key], store)
    else var m := gen(q.args); (m, store[q.key := m])
  }

  /** Every stored mask is what the generator makes for its key. */
  ghost predicate Coherent(store: map<Key, Mask>, gen: GenArgs -> Mask) {
    forall k :: k in store ==> store[k] == gen(ArgsOf(k))
  }

  /** A hit leaves the store alone; a miss adds exactly the generated mask under the key. */
  lemma FetchHitOrMiss(store: map<Key, Mask>, gen: GenArgs -> Mask, q: Request)
    ensures q.key in store ==> Fetch(store, gen, q) == (store[q.key], store)
    ensures q.key !in store ==>
      && Fetch(store, gen, q).0 == gen(q.args)
      && Fetch(store, gen, q).1.Keys == store.Keys + {q.key}
      && Fetch(store, gen, q).1[q.key] == gen(q.args)
      && forall k :: k in store ==> Fetch(store, gen, q).1[k] == store[k]
  {
  }

  /** After one fetch, a second fetch with the same key returns the same mask and stores nothing. */
  lemma SecondFetchHits(store: map<Key, Mask>, gen: GenArgs -> Mask, q: Request, q': Request)
    requires q'.key == q.key
    ensures var (m, s) := Fetch(store, gen, q); Fetch(s, gen, q') == (m, s)
  {
  }

  /** From a coherent store a fetch returns exactly the generator's mask and keeps the store coherent. */
  lemma FetchCoherent(store: map<Key, Mask>, gen: GenArgs -> Mask, width: int, height: int,
                      saturation: real, grayscale: bool, size: real, gauss: int, seed: int)
    requires Coherent(store, gen)
    ensures var q := MakeRequest(width, height, saturation, grayscale, size, gauss, seed);
      Fetch(store, gen, q).0 == gen(q.args) && Coherent(Fetch(store, gen, q).1, gen)
  {
  }

  /** The mask cache: the masks already on disk, keyed by request, and the generator used on a miss. */
  class Cache {
    var store: map<Key, Mask>
    const gen: GenArgs -> Mask
    /** The generator calls made so far, oldest first. */
    ghost var generated: seq<GenArgs>

    constructor (existing: map<Key, Mask>, gen: GenArgs -> Mask)
      ensures store == existing && this.gen == gen && generated == []
    {
      store := existing;
      this.gen := gen;
      generated := [];
    }

    /** Returns the mask for the request, generating and storing it only when it is not stored yet. */
    method GetGrainMask(width: int, height: int, saturation: real, grayscale: bool,
                        size: real, gauss: int, seed: int) returns (mask: Mask)
      modifies this
      ensures var q := MakeRequest(width, height, saturation, grayscale, size, gauss, seed);
        (mask, store) == Fetch(old(store), gen, q)
        && generated == if q.key in old(store) then old(generated) else old(generated) + [q.args]
    {
      var q := MakeRequest(width, height, saturation, grayscale, size, gauss, seed);
      if q.key in store {
        mask := store[q.key];
      } else {
        mask := gen(q.args);
        generated := generated + [q.args];
        store := store[q.key := mask];
      }
    }
  }

  /** Two requests with one key: the second returns the first's mask without calling the generator. */
  method FetchTwice(c: Cache, width: int, height: int, saturation: real, grayscale: bool,
                    size: real, gauss: int, seed: int) returns (first: Mask, second: Mask)
    modifies c
    ensures first == second
    ensures var q := MakeRequest(width, height, saturation, grayscale, size, gauss, seed);
      && c.store == Fetch(old(c.store), c.gen, q).1
      && c.generated == if q.key in old(c.store) then old(c.generated) else old(c.generated) + [q.args]
    ensures Coherent(old(c.store), c.gen) ==> first == c.gen(MakeRequest(width, height, saturation, grayscale, size, gauss, seed).args)
  {
    if Coherent(c.store, c.gen) {
      FetchCoherent(c.store, c.gen, width, height, saturation, grayscale, size, gauss, seed);
    }
    first := c.GetGrainMask(width, height, saturation, grayscale, size, gauss, seed);
    ghost var n := |c.generated|;
    second := c.GetGrainMask(width, height, saturation, grayscale, size, gauss, seed);
    assert |c.generated| == n;
  }
}
