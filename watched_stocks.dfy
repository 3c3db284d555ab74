/**
 * The watchlist: an insertion-ordered dictionary from ticker symbol to alert
 * policy, and the effect of the /add and /remove chat commands on it.
 */
module WatchedStocks {
  import opened Wrappers
  import opened Text

  type Symbol = string

  /** Alert policy of one symbol: the dip threshold in percent and a display name. */
  datatype Entry = Entry(threshold: real, name: string)

  predicate NoDup<T(==)>(s: seq<T>)
  {
    forall i, j :: 0 <= i < j < |s| ==> s[i] != s[j]
  }

  /** An ordered dictionary: `keys` lists the symbols in insertion order, `entries` maps them. */
  datatype Watchlist = Watchlist(keys: seq<Symbol>, entries: map<Symbol, Entry>)
  {
    predicate Valid()
    {
      && NoDup(keys)
      && (forall k :: k in entries ==> k in keys)
      && (forall k :: k in keys ==> k in entries)
    }
  }

  /** The symbols of `keys` other than `k`, in their original order. */
  function Without(keys: seq<Symbol>, k: Symbol): (r: seq<Symbol>)
    ensures forall x :: x in r <==> x in keys && x != k
    ensures k !in keys ==> r == keys
  {
    if keys == [] then []
    else if keys[0] == k then Without(keys[1..], k)
    else [keys[0]] + Without(keys[1..], k)
  }

  lemma NoDupTail<T>(s: seq<T>)
    requires s != [] && NoDup(s)
    ensures NoDup(s[1..]) && s[0] !in s[1..]
  {
  }

  lemma NoDupCons<T>(x: T, s: seq<T>)
    requires x !in s && NoDup(s)
    ensures NoDup([x] + s)
  {
  }

  lemma NoDupInit<T>(s: seq<T>)
    requires s != [] && NoDup(s)
    ensures NoDup(s[..|s| - 1]) && s[|s| - 1] !in s[..|s| - 1]
  {
  }

  /** Dropping a key from distinct keys leaves distinct keys. */
  lemma {:induction false} WithoutNoDup(keys: seq<Symbol>, k: Symbol)
    requires NoDup(keys)
    ensures NoDup(Without(keys, k))
  {
    if keys != [] {
      NoDupTail(keys);
      WithoutNoDup(keys[1..], k);
      if keys[0] != k {
        NoDupCons(keys[0], Without(keys[1..], k));
      }
    }
  }

  /** Dropping a key that occurs only at position `p` leaves the keys before it followed
      by the keys after it: the survivors keep their order. */
  lemma {:induction false} WithoutAt(keys: seq<Symbol>, k: Symbol, p: nat)
    requires p < |keys| && keys[p] == k && k !in keys[..p] && k !in keys[p + 1..]
    ensures Without(keys, k) == keys[..p] + keys[p + 1..]
  {
    var tail := keys[1..];
    if p == 0 {
      assert tail == keys[p + 1..];
      assert keys[..0] + tail == tail;
    } else {
      assert keys[0] in keys[..p];
      assert tail[..p - 1] == keys[1..p];
      assert tail[p..] == keys[p + 1..];
      WithoutAt(tail, k, p - 1);
      assert [keys[0]] + keys[1..p] == keys[..p];
      assert Without(keys, k) == [keys[0]] + (keys[1..p] + keys[p + 1..]);
    }
  }

  /** `after` is `keys` with the occurrence of `k`, if any, cut out and the rest in order. */
  predicate KeysAfterRemoval(keys: seq<Symbol>, k: Symbol, after: seq<Symbol>)
  {
    forall p :: 0 <= p < |keys| && keys[p] == k ==> after == keys[..p] + keys[p + 1..]
  }

  /** In distinct keys, removing a key keeps the others in their order. */
  lemma {:induction false} WithoutKeepsOrder(keys: seq<Symbol>, k: Symbol)
    requires NoDup(keys)
    ensures KeysAfterRemoval(keys, k, Without(keys, k))
  {
    forall p | 0 <= p < |keys| && keys[p] == k
      ensures Without(keys, k) == keys[..p] + keys[p + 1..]
    {
      assert k !in keys[..p] by {
        forall i | 0 <= i < p ensures keys[..p][i] != k { assert keys[i] != keys[p]; }
      }
      assert k !in keys[p + 1..] by {
        forall j | p + 1 <= j < |keys| ensures keys[j] != k { assert keys[p] != keys[j]; }
      }
      WithoutAt(keys, k, p);
    }
  }

  /** Removing a key that was appended last gives back the keys before it. */
  lemma {:induction false} WithoutAppended(keys: seq<Symbol>, k: Symbol)
    requires k !in keys
    ensures Without(keys + [k], k) == keys
  {
    if keys != [] {
      assert (keys + [k])[1..] == keys[1..] + [k];
      WithoutAppended(keys[1..], k);
    }
  }

  /** `d[k] = e`: overwrite in place, or append a new key at the end. */
  function Put(w: Watchlist, k: Symbol, e: Entry): (r: Watchlist)
    requires w.Valid()
    ensures r.Valid()
    ensures r.entries == w.entries[k := e]
    ensures w.keys <= r.keys
  {
    if k in w.entries then Watchlist(w.keys, w.entries[k := e])
    else Watchlist(w.keys + [k], w.entries[k := e])
  }

  /** `del d[k]`: drop the key and keep the others in order. */
  function Delete(w: Watchlist, k: Symbol): (r: Watchlist)
    requires w.Valid()
    ensures r.Valid()
    ensures r.entries == w.entries - {k}
    ensures k !in w.entries ==> r == w
    ensures KeysAfterRemoval(w.keys, k, r.keys)
  {
    WithoutNoDup(w.keys, k);
    WithoutKeepsOrder(w.keys, k);
    Watchlist(Without(w.keys, k), w.entries - {k})
  }

  /** The watchlist used when no configuration is supplied. */
  function DefaultStocks(): (w: Watchlist)
    ensures w.Valid()
    ensures |w.keys| == 7
    ensures forall k :: k in w.entries ==> w.entries[k].threshold > 0.0
  {
    Watchlist(
      ["AAPL", "GOOGL", "MSFT", "TSLA", "NVDA", "AMZN", "META"],
      map[
        "AAPL" := Entry(3.0, "Apple Inc."),
        "GOOGL" := Entry(3.0, "Alphabet Inc."),
        "MSFT" := Entry(3.0, "Microsoft Corp."),
        "TSLA" := Entry(5.0, "Tesla Inc."),
        "NVDA" := Entry(5.0, "NVIDIA Corp."),
        "AMZN" := Entry(3.0, "Amazon.com Inc."),
        "META" := Entry(4.0, "Meta Platforms Inc.")])
  }

  /** What the bot answers to a watchlist command (the wording is not modelled). */
  datatype Reply =
    | AddUsage
    | Added(symbol: Symbol, name: string)
    | InvalidThreshold
    | RemoveUsage
    | Removed(symbol: Symbol)
    | NotFound(symbol: Symbol)

  /**
   * `/add SYMBOL THRESHOLD NAME...`. `parseFloat` is the outcome of Python's
   * `float()` on a string, None where it raises ValueError.
   */
  function AddStock(w: Watchlist, args: seq<string>, parseFloat: string -> Option<real>): (r: (Watchlist, Reply))
    requires w.Valid()
    ensures r.0.Valid()
    ensures |args| < 3 ==> r == (w, AddUsage)
    ensures |args| >= 3 && parseFloat(args[1]).None? ==> r == (w, InvalidThreshold)
    ensures |args| >= 3 && parseFloat(args[1]).Some? ==>
      var symbol, name := Upper(args[0]), JoinWords(args[2..]);
      && r.0.entries == w.entries[symbol := Entry(parseFloat(args[1]).value, name)]
      && w.keys <= r.0.keys
      && r.1 == Added(symbol, name)
  {
    if |args| < 3 then (w, AddUsage)
    else
      var symbol := Upper(args[0]);
      match parseFloat(args[1])
      case None => (w, InvalidThreshold)
      case Some(threshold) =>
        var name := JoinWords(args[2..]);
        (Put(w, symbol, Entry(threshold, name)), Added(symbol, name))
  }

  /** `/remove SYMBOL`. */
  function RemoveStock(w: Watchlist, args: seq<string>): (r: (Watchlist, Reply))
    requires w.Valid()
    ensures r.0.Valid()
    ensures args == [] ==> r == (w, RemoveUsage)
    ensures args != [] && Upper(args[0]) in w.entries ==>
      && r.0.entries == w.entries - {Upper(args[0])}
      && KeysAfterRemoval(w.keys, Upper(args[0]), r.0.keys)
      && r.1 == Removed(Upper(args[0]))
    ensures args != [] && Upper(args[0]) !in w.entries ==> r == (w, NotFound(Upper(args[0])))
  {
    if args == [] then (w, RemoveUsage)
    else
      var symbol := Upper(args[0]);
      if symbol in w.entries then (Delete(w, symbol), Removed(symbol))
      else (w, NotFound(symbol))
  }

  /** Removing a symbol that an /add has just introduced restores the watchlist exactly,
      insertion order included, whatever the case in which the symbol is written. */
  lemma AddThenRemove(w: Watchlist, args: seq<string>, parseFloat: string -> Option<real>, symbol: string)
    requires w.Valid() && |args| >= 3 && parseFloat(args[1]).Some?
    requires Upper(args[0]) !in w.entries && Upper(symbol) == Upper(args[0])
    ensures RemoveStock(AddStock(w, args, parseFloat).0, [symbol]) == (w, Removed(Upper(args[0])))
  {
    var k := Upper(args[0]);
    var added := AddStock(w, args, parseFloat).0;
    assert added.keys == w.keys + [k];
    WithoutAppended(w.keys, k);
    assert added.entries - {k} == w.entries;
  }
}
