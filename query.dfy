/** The ordered list of name-value pairs behind `URL.searchParams`, and its
    `set()` operation as the WHATWG URL Standard defines it (section 6.2, the
    URLSearchParams class): replace the value of the first pair with that name,
    remove the other pairs with that name, or append a new pair when there is
    none. */
module Query {
  import opened Wrappers

  type Pair = (string, string)

  /** The names of the pairs, in order. */
  function Names(l: seq<Pair>): (ns: seq<string>)
    ensures |ns| == |l|
    ensures forall i | 0 <= i < |l| :: ns[i] == l[i].0
  {
    seq(|l|, i requires 0 <= i < |l| => l[i].0)
  }

  /** No name occurs twice. */
  predicate Unique(ns: seq<string>) {
    forall i, j | 0 <= i < j < |ns| :: ns[i] != ns[j]
  }

  /** `get(name)`: the value of the first pair with that name. */
  function Get(l: seq<Pair>, name: string): (r: Option<string>)
    ensures r.None? <==> name !in Names(l)
  {
    if l == [] then None
    else if l[0].0 == name then Some(l[0].1)
    else
      assert Names(l) == [l[0].0] + Names(l[1..]);
      Get(l[1..], name)
  }

  /** `l` without any pair named `name`, the rest in order. */
  function Without(l: seq<Pair>, name: string): (r: seq<Pair>)
    ensures name !in Names(r)
  {
    if l == [] then []
    else if l[0].0 == name then Without(l[1..], name)
    else
      var rest := Without(l[1..], name);
      assert Names([l[0]] + rest) == [l[0].0] + Names(rest);
      [l[0]] + rest
  }

  /** `set(name, value)` on the list `l`. */
  function SetParam(l: seq<Pair>, name: string, value: string): seq<Pair> {
    if l == [] then [(name, value)]
    else if l[0].0 == name then [(name, value)] + Without(l[1..], name)
    else [l[0]] + SetParam(l[1..], name, value)
  }

  /** One `set` per pair of `ps`, in order, starting from `l`. */
  function SetAll(l: seq<Pair>, ps: seq<Pair>): seq<Pair>
    decreases |ps|
  {
    if ps == [] then l
    else
      var k := |ps| - 1;
      SetParam(SetAll(l, ps[..k]), ps[k].0, ps[k].1)
  }

  /** One more `set` after a run of them: the run `a + b[..i]` extended by `b[i]`. */
  lemma SetAllStep(l: seq<Pair>, a: seq<Pair>, b: seq<Pair>, i: nat)
    requires i < |b|
    ensures SetAll(l, a + b[..i + 1]) == SetParam(SetAll(l, a + b[..i]), b[i].0, b[i].1)
  {
    var ps := a + b[..i + 1];
    assert ps[..|ps| - 1] == a + b[..i];
  }

  /** The value of the last pair of `ps` named `name`. */
  function LastValue(ps: seq<Pair>, name: string): string
    requires name in Names(ps)
    decreases |ps|
  {
    var k := |ps| - 1;
    if ps[k].0 == name then ps[k].1
    else
      assert Names(ps) == Names(ps[..k]) + [ps[k].0];
      LastValue(ps[..k], name)
  }

  /** The names of `ks` that are not in `seen`, each once, in order of first
      occurrence. */
  function NewNames(seen: seq<string>, ks: seq<string>): seq<string>
    decreases |ks|
  {
    if ks == [] then []
    else
      var k := |ks| - 1;
      NewNames(seen, ks[..k]) + if ks[k] in seen || ks[k] in ks[..k] then [] else [ks[k]]
  }

  /** The URLSearchParams object of a freshly parsed URL without query, updated in place. */
  class SearchParams {
    var list: seq<Pair>

    constructor ()
      ensures list == []
    {
      list := [];
    }

    /** `searchParams.set(name, value)`. */
    method Set(name: string, value: string)
      modifies this
      ensures list == SetParam(old(list), name, value)
    {
      var l := list;
      var out: seq<Pair> := [];
      var found := false;
      var i := 0;
      while i < |l|
        invariant 0 <= i <= |l|
        invariant out + Pending(l[i..], name, value, found) == SetParam(l, name, value)
      {
        ScanStep(l, i, out, name, value, found);
        out, found := out + Emitted(l[i], name, value, found), found || l[i].0 == name;
        i := i + 1;
      }
      assert l[i..] == [];
      if !found {
        out := out + [(name, value)];
      }
      list := out;
    }
  }

  /** What `set` still has to produce from the unscanned pairs `rest`, once the
      first pair named `name` has (`found`) or has not been replaced. */
  function Pending(rest: seq<Pair>, name: string, value: string, found: bool): seq<Pair> {
    if found then Without(rest, name) else SetParam(rest, name, value)
  }

  /** What `set` writes for the scanned pair `p`: `p` itself under another name;
      the new pair in place of the first pair named `name`; nothing for later ones. */
  function Emitted(p: Pair, name: string, value: string, found: bool): seq<Pair> {
    if p.0 != name then [p] else if found then [] else [(name, value)]
  }

  lemma PendingStep(rest: seq<Pair>, name: string, value: string, found: bool)
    requires rest != []
    ensures Pending(rest, name, value, found) ==
      Emitted(rest[0], name, value, found) + Pending(rest[1..], name, value, found || rest[0].0 == name)
  {
  }

  lemma Regroup(out: seq<Pair>, whole: seq<Pair>, front: seq<Pair>, rest: seq<Pair>)
    requires whole == front + rest
    ensures out + whole == (out + front) + rest
  {
  }

  /** One pair scanned by `SearchParams.Set` keeps its loop invariant. */
  lemma ScanStep(l: seq<Pair>, i: nat, out: seq<Pair>, name: string, value: string, found: bool)
    requires i < |l|
    requires out + Pending(l[i..], name, value, found) == SetParam(l, name, value)
    ensures (out + Emitted(l[i], name, value, found)) + Pending(l[i + 1..], name, value, found || l[i].0 == name)
            == SetParam(l, name, value)
  {
    PendingStep(l[i..], name, value, found);
    assert l[i..][1..] == l[i + 1..];
    Regroup(out, Pending(l[i..], name, value, found), Emitted(l[i], name, value, found),
            Pending(l[i + 1..], name, value, found || l[i].0 == name));
  }

  // ---- properties of set()

  lemma {:induction false} WithoutAbsent(l: seq<Pair>, name: string)
    requires name !in Names(l)
    ensures Without(l, name) == l
  {
    if l != [] {
      assert Names(l) == [l[0].0] + Names(l[1..]);
      WithoutAbsent(l[1..], name);
    }
  }

  lemma {:induction false} WithoutKeepsGet(l: seq<Pair>, name: string, other: string)
    requires other != name
    ensures Get(Without(l, name), other) == Get(l, other)
  {
    if l != [] {
      WithoutKeepsGet(l[1..], name, other);
    }
  }

  /** A name not yet present is appended at the end. */
  lemma {:induction false} SetAppendsNewName(l: seq<Pair>, name: string, value: string)
    requires name !in Names(l)
    ensures SetParam(l, name, value) == l + [(name, value)]
  {
    if l != [] {
      assert Names(l) == [l[0].0] + Names(l[1..]);
      SetAppendsNewName(l[1..], name, value);
      assert l == [l[0]] + l[1..];
    }
  }

  /** A name already present, once, has its value replaced in its own position. */
  lemma {:induction false} SetReplacesInPlace(l: seq<Pair>, name: string, value: string, i: nat)
    requires Unique(Names(l))
    requires i < |l| && l[i].0 == name
    ensures SetParam(l, name, value) == l[i := (name, value)]
  {
    UniqueTail(l);
    if i == 0 {
      WithoutAbsent(l[1..], name);
    } else {
      SetReplacesInPlace(l[1..], name, value, i - 1);
      assert l[i := (name, value)] == [l[0]] + l[1..][i - 1 := (name, value)];
    }
  }

  /** The tail of a list with unique names has unique names, none of them the head's. */
  lemma UniqueTail(l: seq<Pair>)
    requires l != [] && Unique(Names(l))
    ensures Unique(Names(l[1..])) && l[0].0 !in Names(l[1..])
  {
    var ns, ts := Names(l), Names(l[1..]);
    assert forall j | 0 <= j < |ts| :: ts[j] == ns[j + 1];
  }

  /** After `set`, the name reads back the new value and every other name reads
      back what it read before. */
  lemma {:induction false} SetThenGet(l: seq<Pair>, name: string, value: string, other: string)
    ensures Get(SetParam(l, name, value), name) == Some(value)
    ensures other != name ==> Get(SetParam(l, name, value), other) == Get(l, other)
  {
    if l != [] {
      if l[0].0 == name {
        if other != name {
          WithoutKeepsGet(l[1..], name, other);
        }
      } else {
        SetThenGet(l[1..], name, value, other);
      }
    }
  }

  /** With unique names, `set` keeps the names unique: it either keeps the name
      sequence or appends the new name. */
  lemma SetNames(l: seq<Pair>, name: string, value: string)
    requires Unique(Names(l))
    ensures Names(SetParam(l, name, value)) == if name in Names(l) then Names(l) else Names(l) + [name]
    ensures Unique(Names(SetParam(l, name, value)))
  {
    if name in Names(l) {
      var i :| 0 <= i < |l| && Names(l)[i] == name;
      SetReplacesInPlace(l, name, value, i);
      assert Names(l[i := (name, value)]) == Names(l);
    } else {
      SetAppendsNewName(l, name, value);
      assert Names(l + [(name, value)]) == Names(l) + [name];
    }
  }

  lemma {:induction false} NewNamesMembers(seen: seq<string>, ks: seq<string>, n: string)
    ensures n in NewNames(seen, ks) <==> n in ks && n !in seen
    decreases |ks|
  {
    if ks != [] {
      var k := |ks| - 1;
      NewNamesMembers(seen, ks[..k], n);
      assert ks == ks[..k] + [ks[k]];
    }
  }

  /** A sequence of `set` calls on a list with unique names: the names stay
      unique, the old names keep their positions and new names are appended in
      order of their first occurrence. */
  lemma {:induction false} SetAllNames(l: seq<Pair>, ps: seq<Pair>)
    requires Unique(Names(l))
    ensures Names(SetAll(l, ps)) == Names(l) + NewNames(Names(l), Names(ps))
    ensures Unique(Names(SetAll(l, ps)))
    decreases |ps|
  {
    if ps != [] {
      var k := |ps| - 1;
      var before := SetAll(l, ps[..k]);
      SetAllNames(l, ps[..k]);
      SetNames(before, ps[k].0, ps[k].1);
      assert Names(ps[..k]) == Names(ps)[..k];
      NewNamesMembers(Names(l), Names(ps)[..k], ps[k].0);
    }
  }

  /** A sequence of `set` calls: a name that some pair of `ps` sets reads back
      the value of the last such pair; any other name reads back what it read before. */
  lemma {:induction false} SetAllGet(l: seq<Pair>, ps: seq<Pair>, name: string)
    ensures Get(SetAll(l, ps), name) == if name in Names(ps) then Some(LastValue(ps, name)) else Get(l, name)
    decreases |ps|
  {
    if ps != [] {
      var k := |ps| - 1;
      SetAllGet(l, ps[..k], name);
      SetThenGet(SetAll(l, ps[..k]), ps[k].0, ps[k].1, name);
      assert Names(ps) == Names(ps[..k]) + [ps[k].0];
    }
  }
}
