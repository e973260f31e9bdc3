/**
 * The settings of spaxelsleuth/config.py: the global `settings` dictionary,
 * the one-level-deep merge of a user's JSON config file into it
 * (`load_user_config`), and the level check of `configure_logger`.
 * Reading the files, printing and logging are not modelled; the JSON text
 * arrives already parsed.
 */
module Config {
  import opened Outcomes

  /**
   * A dict key. The keys of a JSON object are strings; merging a list where
   * a dict is expected files its elements under integer keys (a bool
   * element is the key 0 or 1, which is how Python hashes it).
   */
  datatype Key = Name(s: string) | Index(i: int)

  /** A value as `json.load` returns it. */
  datatype Json =
    | Object(d: Dict)
    | Array(items: seq<Json>)
    | Text(s: string)
    | Integer(n: int)     // a JSON number with neither fraction nor exponent: a Python int
    | Number(x: real)     // any other JSON number: a Python float
    | Bool(b: bool)
    | Null

  /** A Python dict: its keys in insertion order, and what each maps to. */
  datatype Dict = Dict(order: seq<Key>, fields: map<Key, Json>)
  {
    /** Each key once, in `order` exactly when it is in `fields`. */
    ghost predicate Keyed()
    {
      && (forall i, j :: 0 <= i < j < |order| ==> order[i] != order[j])
      && (forall k :: k in fields <==> k in order)
    }

    /** `d[k] = v`: a new key goes to the end, an existing one keeps its place. */
    function Set(k: Key, v: Json): (r: Dict)
      ensures r.fields == fields[k := v]
    {
      if k in fields then Dict(order, fields[k := v]) else Dict(order + [k], fields[k := v])
    }
  }

  /** `settings[key][subkey] = user[key][subkey]` for the first `ks` subkeys, in order. */
  function SetAll(d: Dict, ks: seq<Key>, src: map<Key, Json>): (r: Dict)
    requires forall k :: k in ks ==> k in src
    ensures forall k :: k in r.fields <==> k in d.fields || k in ks
    ensures forall k :: k in r.fields ==> r.fields[k] == if k in ks then src[k] else d.fields[k]
    ensures (forall k :: k in ks ==> k in d.fields) ==> r.order == d.order
  {
    if ks == [] then d
    else SetAll(d, ks[..|ks| - 1], src).Set(ks[|ks| - 1], src[ks[|ks| - 1]])
  }

  // ---- A list where a dict is expected ----

  /** The int a list element stands for as an index: an int itself, or a bool as 0 or 1. */
  function AsIndex(e: Json): Option<int>
  {
    match e
    case Integer(n) => Some(n)
    case Bool(b) => Some(if b then 1 else 0)
    case _ => None
  }

  /** A Python list position: a negative index counts from the end. */
  function Position(xs: seq<Json>, i: int): (p: nat)
    requires -|xs| <= i < |xs|
    ensures p < |xs|
  {
    if i < 0 then i + |xs| else i
  }

  /**
   * `xs[e]`, for an element `e` of the list `xs` that the merge loop uses
   * as a key: the key it is filed under and the value it indexes.
   */
  function ListItem(xs: seq<Json>, e: Json): (r: Result<(Key, Json)>)
    ensures r.Success? ==> r.value.1 in xs
  {
    match AsIndex(e)
    case None => Failure(TypeError("list indices must be integers or slices"))
    case Some(i) =>
      if -|xs| <= i < |xs| then Success((Index(i), xs[Position(xs, i)]))
      else Failure(IndexError("list index out of range"))
  }

  /**
   * The subkey loop when the user's value is a list `xs`: element `e` in
   * turn writes `d[e] = xs[e]`, up to the first element that is not a valid
   * index; what was written before it stays.
   */
  function SetItems(d: Dict, es: seq<Json>, xs: seq<Json>): (r: (Outcome, Dict))
  {
    if es == [] then (Pass, d)
    else
      var before := SetItems(d, es[..|es| - 1], xs);
      if before.0.Fail? then before
      else match ListItem(xs, es[|es| - 1])
        case Failure(e) => (Fail(e), before.1)
        case Success(kv) => (Pass, before.1.Set(kv.0, kv.1))
  }

  /** The keys the elements `es` of a list `xs` write, as indices into it. */
  function ItemKeys(xs: seq<Json>, es: seq<Json>): set<Key>
  {
    set j | 0 <= j < |es| && ListItem(xs, es[j]).Success? :: ListItem(xs, es[j]).value.0
  }

  /** What `xs[i]` holds, for the key `i` of a valid index. */
  function ItemAt(xs: seq<Json>, k: Key): Json
    requires k.Index? && -|xs| <= k.i < |xs|
  {
    xs[Position(xs, k.i)]
  }

  // ---- One key of the user's file ----

  /**
   * What a setting `key` already held becomes when the user's file also
   * names `key`: a dict setting takes the user's entries subkey by subkey
   * (the elements of a list, used as indices into the list itself);
   * anything else is replaced by the user's value. Iterating a string or a
   * scalar under a dict setting raises before anything is written, unless it
   * is the empty string, which the loop never enters. A list raises at its
   * first bad index and keeps what came before it.
   */
  function MergeValue(current: Json, u: Json): (r: (Outcome, Json))
    requires u.Object? ==> u.d.Keyed()
  {
    if current.Object? then
      match u
      case Object(ud) => (Pass, Object(SetAll(current.d, ud.order, ud.fields)))
      case Array(xs) => (SetItems(current.d, xs, xs).0, Object(SetItems(current.d, xs, xs).1))
      case Text(s) => if s == "" then (Pass, current) else (Fail(TypeError("string indices must be integers")), current)
      case _ => (Fail(TypeError("object is not iterable")), current)
    else (Pass, u)
  }

  /** Writing an existing key twice leaves the second value, in the same place. */
  lemma SetTwice(d: Dict, k: Key, v: Json, w: Json)
    requires k in d.fields
    ensures d.Set(k, v).Set(k, w) == d.Set(k, w)
  {
  }

  /** Writing a key's own value back changes nothing. */
  lemma SetSame(d: Dict, k: Key)
    requires k in d.fields
    ensures d.Set(k, d.fields[k]) == d
  {
    assert d.fields[k := d.fields[k]] == d.fields;
  }

  /** The user's entries as `json.load` builds them: each object's keys once and in order. */
  ghost predicate Parsed(src: map<Key, Json>)
  {
    forall k :: k in src && src[k].Object? ==> src[k].d.Keyed()
  }

  /** A parsed user file: every object in it (at the top, or one level down) has its keys once and in order. */
  ghost predicate FromJson(user: Json)
  {
    match user
    case Object(u) => u.Keyed() && Parsed(u.fields)
    case Array(xs) => forall x :: x in xs && x.Object? ==> x.d.Keyed()
    case _ => true
  }

  /** One pass of the merge loop: key `k` of the user's file, with value `u`; what was written stays even when it raises. */
  function MergeOne(d: Dict, k: Key, u: Json): (r: (Outcome, Dict))
    requires u.Object? ==> u.d.Keyed()
    ensures forall x :: x in r.1.fields <==> x in d.fields || x == k
  {
    if k in d.fields then
      var m := MergeValue(d.fields[k], u);
      (m.0, d.Set(k, m.1))
    else (Pass, d.Set(k, u))
  }

  /** The merge loop over the user's first `ks` keys, stopping at the first exception. */
  function MergeKeys(d: Dict, ks: seq<Key>, src: map<Key, Json>): (r: (Outcome, Dict))
    requires forall k :: k in ks ==> k in src
    requires Parsed(src)
    ensures forall k :: k in r.1.fields ==> k in d.fields || k in ks
    ensures forall k :: k in d.fields ==> k in r.1.fields
    ensures r.0 == Pass ==> forall k :: k in ks ==> k in r.1.fields
  {
    if ks == [] then (Pass, d)
    else
      var before := MergeKeys(d, ks[..|ks| - 1], src);
      if before.0.Fail? then before
      else MergeOne(before.1, ks[|ks| - 1], src[ks[|ks| - 1]])
  }

  /** Folding one more key of the list into a prefix that merged cleanly. */
  lemma MergeKeysNext(d: Dict, ks: seq<Key>, src: map<Key, Json>, i: nat)
    requires forall k :: k in ks ==> k in src
    requires Parsed(src)
    requires i < |ks|
    ensures MergeKeys(d, ks[..i], src).0 == Pass ==>
      MergeKeys(d, ks[..i + 1], src) == MergeOne(MergeKeys(d, ks[..i], src).1, ks[i], src[ks[i]])
  {
    assert ks[..i + 1][..i] == ks[..i];
  }

  /** Once a key has raised, the later keys are never reached. */
  lemma {:induction false} MergeKeysStops(d: Dict, ks: seq<Key>, src: map<Key, Json>, i: nat)
    requires forall k :: k in ks ==> k in src
    requires Parsed(src)
    requires i <= |ks|
    requires MergeKeys(d, ks[..i], src).0.Fail?
    ensures MergeKeys(d, ks, src) == MergeKeys(d, ks[..i], src)
  {
    if i < |ks| {
      assert ks[..|ks| - 1][..i] == ks[..i];
      MergeKeysStops(d, ks[..|ks| - 1], src, i);
    } else {
      assert ks[..i] == ks;
    }
  }

  /**
   * A top-level list element `e`, as `for key in user` meets it: the key it
   * is filed under and the value `user[key]`. A list or an object cannot be
   * a dict key at all; any other element raises unless it is a valid index
   * into the list.
   */
  function TopItem(xs: seq<Json>, e: Json): (r: Result<(Key, Json)>)
    ensures r.Success? ==> r == ListItem(xs, e)
  {
    if e.Object? || e.Array? then Failure(TypeError("unhashable type"))
    else ListItem(xs, e)
  }

  /** The merge loop over the first elements `es` of a top-level list `xs`, stopping at the first exception. */
  function MergeItems(d: Dict, es: seq<Json>, xs: seq<Json>): (r: (Outcome, Dict))
    requires forall x :: x in xs && x.Object? ==> x.d.Keyed()
  {
    if es == [] then (Pass, d)
    else
      var before := MergeItems(d, es[..|es| - 1], xs);
      if before.0.Fail? then before
      else match TopItem(xs, es[|es| - 1])
        case Failure(e) => (Fail(e), before.1)
        case Success(kv) => MergeOne(before.1, kv.0, kv.1)
  }

  /**
   * `load_user_config` on an already parsed file. Iterating a top-level
   * string hands its characters to `user[key]`, which raises before
   * anything is written; the empty string does nothing. A top-level list
   * merges `user[e]` under key `e` for each element `e`.
   */
  function LoadUserConfigSpec(settings: Dict, user: Json): (r: (Outcome, Dict))
    requires FromJson(user)
  {
    match user
    case Object(u) => MergeKeys(settings, u.order, u.fields)
    case Array(xs) => MergeItems(settings, xs, xs)
    case Text(s) => if s == "" then (Pass, settings) else (Fail(TypeError("string indices must be integers")), settings)
    case _ => (Fail(TypeError("object is not iterable")), settings)
  }


  // ---- What the merge does ----

  /** The user's keys as `json.load` delivers them: each with its value, objects well formed. */
  ghost predicate Loadable(ks: seq<Key>, src: map<Key, Json>)
  {
    (forall k :: k in ks ==> k in src) && Parsed(src)
  }

  /**
   * The subkey loop over a list: it raises exactly when some element is not
   * a valid index; when it does not, every index key holds the element at
   * that position and every other key keeps its value.
   */
  lemma {:induction false} SetItemsMeaning(d: Dict, es: seq<Json>, xs: seq<Json>)
    ensures var r := SetItems(d, es, xs);
      && (r.0 == Pass <==> forall j :: 0 <= j < |es| ==> ListItem(xs, es[j]).Success?)
      && (r.0 == Pass ==> forall k :: k in r.1.fields <==> k in d.fields || k in ItemKeys(xs, es))
      && (r.0 == Pass ==> forall k :: k in ItemKeys(xs, es) ==> k in r.1.fields && r.1.fields[k] == ItemAt(xs, k))
      && (r.0 == Pass ==> forall k :: k in d.fields && k !in ItemKeys(xs, es) ==> r.1.fields[k] == d.fields[k])
  {
    if es != [] {
      var init := es[..|es| - 1];
      SetItemsMeaning(d, init, xs);
      ItemKeysSnoc(xs, es);
      SetItemsValid(d, es, xs);
    }
  }

  /** The keys of a list of elements are those of all but its last, and the last one's when it is valid. */
  lemma ItemKeysSnoc(xs: seq<Json>, es: seq<Json>)
    requires es != []
    ensures ListItem(xs, es[|es| - 1]).Success? ==>
      ItemKeys(xs, es) == ItemKeys(xs, es[..|es| - 1]) + {ListItem(xs, es[|es| - 1]).value.0}
    ensures ListItem(xs, es[|es| - 1]).Failure? ==> ItemKeys(xs, es) == ItemKeys(xs, es[..|es| - 1])
  {
    var init := es[..|es| - 1];
    forall k | k in ItemKeys(xs, es) && k !in ItemKeys(xs, init) ensures ListItem(xs, es[|es| - 1]).Success? && k == ListItem(xs, es[|es| - 1]).value.0 {
      var j :| 0 <= j < |es| && ListItem(xs, es[j]).Success? && ListItem(xs, es[j]).value.0 == k;
      assert j == |es| - 1;
    }
    forall k | k in ItemKeys(xs, init) ensures k in ItemKeys(xs, es) {
      var j :| 0 <= j < |init| && ListItem(xs, init[j]).Success? && ListItem(xs, init[j]).value.0 == k;
      assert es[j] == init[j];
    }
    assert ListItem(xs, es[|es| - 1]).Success? ==> ListItem(xs, es[|es| - 1]).value.0 in ItemKeys(xs, es);
  }

  /** The subkey loop over a list raises exactly when some element is not a valid index. */
  lemma {:induction false} SetItemsValid(d: Dict, es: seq<Json>, xs: seq<Json>)
    ensures SetItems(d, es, xs).0 == Pass <==> forall j :: 0 <= j < |es| ==> ListItem(xs, es[j]).Success?
  {
    if es != [] {
      var init := es[..|es| - 1];
      SetItemsValid(d, init, xs);
      assert forall j :: 0 <= j < |init| ==> init[j] == es[j];
    }
  }

  /** A list under a dict setting raises at its first bad element, keeping the writes of the elements before it. */
  lemma {:induction false} SetItemsStops(d: Dict, es: seq<Json>, xs: seq<Json>, j: nat)
    requires j < |es| && ListItem(xs, es[j]).Failure?
    requires forall i :: 0 <= i < j ==> ListItem(xs, es[i]).Success?
    ensures SetItems(d, es, xs) == (Fail(ListItem(xs, es[j]).error), SetItems(d, es[..j], xs).1)
  {
    if j < |es| - 1 {
      var init := es[..|es| - 1];
      assert init[..j] == es[..j];
      SetItemsStops(d, init, xs, j);
    } else {
      SetItemsMeaning(d, es[..j], xs);
      assert es[..j] == es[..|es| - 1];
    }
  }

  /** Writing only keys a dict already has keeps its key order. */
  lemma {:induction false} SetItemsKeepsOrder(d: Dict, es: seq<Json>, xs: seq<Json>)
    requires ItemKeys(xs, es) <= d.fields.Keys
    ensures SetItems(d, es, xs).1.order == d.order
    ensures SetItems(d, es, xs).1.fields.Keys == d.fields.Keys
  {
    if es != [] {
      ItemKeysSnoc(xs, es);
      SetItemsKeepsOrder(d, es[..|es| - 1], xs);
    }
  }

  /** Running the subkey loop over the same list a second time changes nothing. */
  lemma SetItemsTwice(d: Dict, es: seq<Json>, xs: seq<Json>)
    requires SetItems(d, es, xs).0 == Pass
    ensures SetItems(SetItems(d, es, xs).1, es, xs) == SetItems(d, es, xs)
  {
    var once := SetItems(d, es, xs).1;
    SetItemsMeaning(d, es, xs);
    SetItemsMeaning(once, es, xs);
    SetItemsKeepsOrder(once, es, xs);
    var twice := SetItems(once, es, xs).1;
    assert twice.fields == once.fields;
  }

  /** What the merged value of one key means: a dict setting keeps the subkeys the user leaves out; anything else is the user's value. */
  lemma MergeValueMeaning(current: Json, u: Json)
    requires u.Object? ==> u.d.Keyed()
    ensures !current.Object? ==> MergeValue(current, u) == (Pass, u)
    ensures current.Object? && u.Object? ==>
      var r := MergeValue(current, u);
      && r.0 == Pass && r.1.Object?
      && (forall k :: k in r.1.d.fields <==> k in current.d.fields || k in u.d.fields)
      && (forall k :: k in current.d.fields && k !in u.d.fields ==> r.1.d.fields[k] == current.d.fields[k])
      && (forall k :: k in u.d.fields ==> r.1.d.fields[k] == u.d.fields[k])
    ensures current.Object? && u.Array? ==>
      var r := MergeValue(current, u);
      && r.1.Object?
      && (r.0 == Pass <==> forall j :: 0 <= j < |u.items| ==> ListItem(u.items, u.items[j]).Success?)
      && (r.0 == Pass ==> forall k :: k in r.1.d.fields <==> k in current.d.fields || k in ItemKeys(u.items, u.items))
      && (r.0 == Pass ==> forall k :: k in ItemKeys(u.items, u.items) ==> r.1.d.fields[k] == ItemAt(u.items, k))
    ensures current.Object? && !u.Object? && !u.Array? ==>
      && MergeValue(current, u).1 == current
      && (MergeValue(current, u).0 == Pass <==> u == Text(""))
  {
    if current.Object? && u.Object? {
      assert forall k :: k in u.d.order <==> k in u.d.fields;
    }
    if current.Object? && u.Array? {
      SetItemsMeaning(current.d, u.items, u.items);
    }
  }

  /** Taking a dict's own entries into it again changes nothing (order included). */
  lemma SetAllOwn(d: Dict)
    requires d.Keyed()
    ensures SetAll(d, d.order, d.fields) == d
  {
    var r := SetAll(d, d.order, d.fields);
    assert r.fields == d.fields;
  }

  /** Setting the same keys to the same values a second time changes nothing. */
  lemma SetAllTwice(d: Dict, ks: seq<Key>, src: map<Key, Json>)
    requires forall k :: k in ks ==> k in src
    ensures SetAll(SetAll(d, ks, src), ks, src) == SetAll(d, ks, src)
  {
    var once := SetAll(d, ks, src);
    var twice := SetAll(once, ks, src);
    assert twice.order == once.order;
    assert twice.fields == once.fields;
  }

  /** Merging a user value into what it already produced gives the same value again. */
  lemma MergeValueIdempotent(current: Json, u: Json)
    requires u.Object? ==> u.d.Keyed()
    requires MergeValue(current, u).0 == Pass
    ensures MergeValue(MergeValue(current, u).1, u) == MergeValue(current, u)
  {
    if current.Object? && u.Object? {
      SetAllTwice(current.d, u.d.order, u.d.fields);
    } else if current.Object? && u.Array? {
      SetItemsTwice(current.d, u.items, u.items);
    } else if u.Object? {
      SetAllOwn(u.d);
    } else if u.Array? {
      assert MergeValue(current, u) == (Pass, u);
    }
  }

  /** A user value merged into itself stays as it is. */
  lemma MergeValueSelf(u: Json)
    requires u.Object? ==> u.d.Keyed()
    ensures MergeValue(u, u) == (Pass, u)
  {
    if u.Object? {
      SetAllOwn(u.d);
    }
  }

  /**
   * After a merge that raised nothing, key `k` holds: its old value when the
   * user does not name it, the user's value when it is new, and the merged
   * value (subkey by subkey for a dict setting, the user's value otherwise)
   * when it is in both. A key named twice ends as if it were named once.
   */
  lemma {:induction false} MergeKeysAt(d: Dict, ks: seq<Key>, src: map<Key, Json>, k: Key)
    requires Loadable(ks, src)
    requires MergeKeys(d, ks, src).0 == Pass
    ensures var e := MergeKeys(d, ks, src).1;
      && (k in e.fields <==> k in d.fields || k in ks)
      && (k in d.fields && k !in ks ==> e.fields[k] == d.fields[k])
      && (k in ks && k !in d.fields ==> e.fields[k] == src[k])
      && (k in ks && k in d.fields ==> MergeValue(d.fields[k], src[k]) == (Pass, e.fields[k]))
  {
    if ks != [] {
      var init := ks[..|ks| - 1];
      var last := ks[|ks| - 1];
      assert ks == init + [last];
      var before := MergeKeys(d, init, src);
      assert before.0 == Pass;
      assert MergeKeys(d, ks, src) == MergeOne(before.1, last, src[last]);
      MergeKeysAt(d, init, src, k);
      if k != last {
        assert (k in ks <==> k in init);
      } else if k in init {
        if k in d.fields {
          MergeValueIdempotent(d.fields[k], src[k]);
        } else {
          MergeValueSelf(src[k]);
        }
      }
    }
  }

  /** The merge raises exactly when some named key pairs a dict setting with a user value that cannot be merged into it. */
  lemma {:induction false} MergeKeysFails(d: Dict, ks: seq<Key>, src: map<Key, Json>)
    requires Loadable(ks, src)
    ensures MergeKeys(d, ks, src).0.Fail? <==>
      exists k :: k in ks && k in d.fields && MergeValue(d.fields[k], src[k]).0.Fail?
  {
    if ks != [] {
      var init := ks[..|ks| - 1];
      var k := ks[|ks| - 1];
      assert ks == init + [k];
      MergeKeysFails(d, init, src);
      if MergeKeys(d, init, src).0 == Pass {
        MergeKeysAt(d, init, src, k);
        if k in init {
          if k in d.fields {
            MergeValueIdempotent(d.fields[k], src[k]);
          } else {
            MergeValueSelf(src[k]);
          }
        }
      }
    }
  }

  /** With every named key already present, the merge writes keys in place: the order does not change. */
  lemma {:induction false} MergeKeysKeepsOrder(d: Dict, ks: seq<Key>, src: map<Key, Json>)
    requires forall k :: k in ks ==> k in src && k in d.fields
    requires Parsed(src)
    ensures MergeKeys(d, ks, src).1.order == d.order
    ensures forall k :: k in MergeKeys(d, ks, src).1.fields <==> k in d.fields
  {
    if ks != [] {
      MergeKeysKeepsOrder(d, ks[..|ks| - 1], src);
    }
  }

  /** Loading the same user config a second time changes nothing. */
  lemma MergeKeysIdempotent(d: Dict, ks: seq<Key>, src: map<Key, Json>)
    requires Loadable(ks, src)
    requires MergeKeys(d, ks, src).0 == Pass
    ensures MergeKeys(MergeKeys(d, ks, src).1, ks, src) == MergeKeys(d, ks, src)
  {
    var e := MergeKeys(d, ks, src).1;
    SecondPassPasses(d, ks, src);
    MergeKeysKeepsOrder(e, ks, src);
    var e2 := MergeKeys(e, ks, src).1;
    forall k | k in e.fields ensures e2.fields[k] == e.fields[k] {
      SecondPassAt(d, ks, src, k);
    }
    assert e2.fields == e.fields;
  }

  /** The second load raises nothing, and every key it names is already there. */
  lemma SecondPassPasses(d: Dict, ks: seq<Key>, src: map<Key, Json>)
    requires Loadable(ks, src)
    requires MergeKeys(d, ks, src).0 == Pass
    ensures forall k :: k in ks ==> k in MergeKeys(d, ks, src).1.fields
    ensures MergeKeys(MergeKeys(d, ks, src).1, ks, src).0 == Pass
  {
    var e := MergeKeys(d, ks, src).1;
    forall k | k in ks && k in e.fields ensures MergeValue(e.fields[k], src[k]).0 == Pass {
      MergeKeysAt(d, ks, src, k);
      if k in d.fields {
        MergeValueIdempotent(d.fields[k], src[k]);
      } else {
        MergeValueSelf(src[k]);
      }
    }
    MergeKeysFails(e, ks, src);
  }

  /** Key by key, the second load writes back what the first one left. */
  lemma SecondPassAt(d: Dict, ks: seq<Key>, src: map<Key, Json>, k: Key)
    requires Loadable(ks, src)
    requires MergeKeys(d, ks, src).0 == Pass
    requires MergeKeys(MergeKeys(d, ks, src).1, ks, src).0 == Pass
    requires k in MergeKeys(d, ks, src).1.fields
    ensures k in MergeKeys(MergeKeys(d, ks, src).1, ks, src).1.fields
    ensures MergeKeys(MergeKeys(d, ks, src).1, ks, src).1.fields[k] == MergeKeys(d, ks, src).1.fields[k]
  {
    var e := MergeKeys(d, ks, src).1;
    MergeKeysAt(d, ks, src, k);
    MergeKeysAt(e, ks, src, k);
    if k in ks {
      if k in d.fields {
        MergeValueIdempotent(d.fields[k], src[k]);
      } else {
        MergeValueSelf(src[k]);
      }
    }
  }

  // ---- A top-level list ----

  /** The keys a top-level list's elements are filed under, in order (repeats included). */
  function ItemKeySeq(xs: seq<Json>, es: seq<Json>): (ks: seq<Key>)
    requires forall j :: 0 <= j < |es| ==> TopItem(xs, es[j]).Success?
    ensures |ks| == |es|
    ensures forall j :: 0 <= j < |es| ==> ks[j] == TopItem(xs, es[j]).value.0
  {
    if es == [] then []
    else ItemKeySeq(xs, es[..|es| - 1]) + [TopItem(xs, es[|es| - 1]).value.0]
  }

  /** Every valid index into `xs`, filed with what it indexes. */
  function ItemSource(xs: seq<Json>): (src: map<Key, Json>)
  {
    map k | k in (set i | -|xs| <= i < |xs| :: Index(i)) :: ItemAt(xs, k)
  }

  /** Each valid element of a top-level list hands the merge its key and the value `ItemSource` files under it; objects among them are well formed. */
  lemma ItemKeySeqSource(xs: seq<Json>, es: seq<Json>)
    requires forall j :: 0 <= j < |es| ==> TopItem(xs, es[j]).Success?
    requires forall x :: x in xs && x.Object? ==> x.d.Keyed()
    ensures Loadable(ItemKeySeq(xs, es), ItemSource(xs))
    ensures forall j :: 0 <= j < |es| ==> TopItem(xs, es[j]).value == (ItemKeySeq(xs, es)[j], ItemSource(xs)[ItemKeySeq(xs, es)[j]])
  {
    var ks := ItemKeySeq(xs, es);
    forall j | 0 <= j < |es| ensures ks[j] in ItemSource(xs) {
      var i := ks[j].i;
      assert ks[j] in (set i | -|xs| <= i < |xs| :: Index(i));
    }
    forall k | k in ItemSource(xs) && ItemSource(xs)[k].Object? ensures ItemSource(xs)[k].d.Keyed() {
      assert ItemSource(xs)[k] in xs;
    }
  }

  /** A top-level list that merged without raising had a valid index in every element. */
  lemma {:induction false} MergeItemsValid(d: Dict, es: seq<Json>, xs: seq<Json>)
    requires forall x :: x in xs && x.Object? ==> x.d.Keyed()
    requires MergeItems(d, es, xs).0 == Pass
    ensures forall j :: 0 <= j < |es| ==> TopItem(xs, es[j]).Success?
  {
    if es != [] {
      var init := es[..|es| - 1];
      MergeItemsValid(d, init, xs);
      forall j | 0 <= j < |es| ensures TopItem(xs, es[j]).Success? {
        if j < |init| {
          assert es[j] == init[j];
        }
      }
    }
  }

  /**
   * A top-level list whose elements are all valid indices merges like a
   * user object whose keys are those indices, each with the value at that
   * index (repeats included).
   */
  lemma {:induction false} MergeItemsAsKeys(d: Dict, es: seq<Json>, xs: seq<Json>)
    requires forall x :: x in xs && x.Object? ==> x.d.Keyed()
    requires forall j :: 0 <= j < |es| ==> TopItem(xs, es[j]).Success?
    ensures MergeItems(d, es, xs) == MergeKeys(d, ItemKeySeq(xs, es), ItemSource(xs))
  {
    if es != [] {
      var init := es[..|es| - 1];
      assert forall j :: 0 <= j < |init| ==> init[j] == es[j];
      MergeItemsAsKeys(d, init, xs);
      ItemKeySeqSource(xs, es);
      var ks := ItemKeySeq(xs, es);
      var src := ItemSource(xs);
      var kv := TopItem(xs, es[|es| - 1]).value;
      assert ks[..|ks| - 1] == ItemKeySeq(xs, init);
      assert kv == (ks[|ks| - 1], src[ks[|ks| - 1]]);
      assert MergeItems(d, init, xs) == MergeKeys(d, ks[..|ks| - 1], src);
    }
  }

  /** Folding one more element of a top-level list into a prefix that merged cleanly. */
  lemma MergeItemsNext(d: Dict, es: seq<Json>, xs: seq<Json>, i: nat)
    requires forall x :: x in xs && x.Object? ==> x.d.Keyed()
    requires i < |es|
    ensures MergeItems(d, es[..i], xs).0 == Pass ==>
      MergeItems(d, es[..i + 1], xs) == match TopItem(xs, es[i])
        case Failure(e) => (Fail(e), MergeItems(d, es[..i], xs).1)
        case Success(kv) => MergeOne(MergeItems(d, es[..i], xs).1, kv.0, kv.1)
  {
    assert es[..i + 1][..i] == es[..i];
  }

  /** Once an element has raised, the later elements are never reached. */
  lemma {:induction false} MergeItemsStops(d: Dict, es: seq<Json>, xs: seq<Json>, i: nat)
    requires forall x :: x in xs && x.Object? ==> x.d.Keyed()
    requires i <= |es|
    requires MergeItems(d, es[..i], xs).0.Fail?
    ensures MergeItems(d, es, xs) == MergeItems(d, es[..i], xs)
  {
    if i < |es| {
      assert es[..|es| - 1][..i] == es[..i];
      MergeItemsStops(d, es[..|es| - 1], xs, i);
    } else {
      assert es[..i] == es;
    }
  }

  /** Loading the same user configuration twice leaves the settings as loading it once did. */
  lemma LoadTwice(settings: Dict, user: Json)
    requires FromJson(user)
    requires LoadUserConfigSpec(settings, user).0 == Pass
    ensures LoadUserConfigSpec(LoadUserConfigSpec(settings, user).1, user) == LoadUserConfigSpec(settings, user)
  {
    match user
    case Object(u) =>
      assert Loadable(u.order, u.fields);
      MergeKeysIdempotent(settings, u.order, u.fields);
    case Array(xs) =>
      var once := MergeItems(settings, xs, xs);
      MergeItemsValid(settings, xs, xs);
      MergeItemsAsKeys(settings, xs, xs);
      MergeItemsAsKeys(once.1, xs, xs);
      ItemKeySeqSource(xs, xs);
      MergeKeysIdempotent(settings, ItemKeySeq(xs, xs), ItemSource(xs));
    case _ =>
  }

  /** The module-level `settings` dictionary, which the merge updates in place. */
  class Settings {
    var current: Dict

    constructor (d: Dict)
      ensures current == d
    {
      current := d;
    }

    /** `settings[key][subkey] = new_setting` for every subkey of the user's object, in order. */
    method MergeSubkeys(key: Key, ud: Dict)
      requires key in current.fields && current.fields[key].Object?
      requires ud.Keyed()
      modifies this
      ensures current == old(current).Set(key, Object(SetAll(old(current).fields[key].d, ud.order, ud.fields)))
    {
      var inner := current.fields[key].d;
      ghost var start := current;
      var j := 0;
      while j < |ud.order|
        invariant 0 <= j <= |ud.order|
        invariant current == start.Set(key, Object(SetAll(inner, ud.order[..j], ud.fields)))
      {
        var subkey := ud.order[j];
        var d := current.fields[key].d;
        assert d == SetAll(inner, ud.order[..j], ud.fields);
        assert ud.order[..j + 1][..j] == ud.order[..j];
        assert d.Set(subkey, ud.fields[subkey]) == SetAll(inner, ud.order[..j + 1], ud.fields);
        SetTwice(start, key, Object(d), Object(d.Set(subkey, ud.fields[subkey])));
        current := current.Set(key, Object(d.Set(subkey, ud.fields[subkey])));
        j := j + 1;
      }
      assert ud.order[..j] == ud.order;
    }

    /** `settings[key][e] = xs[e]` for every element `e` of the user's list, in order, up to the first that is not a valid index. */
    method MergeListSubkeys(key: Key, xs: seq<Json>) returns (status: Outcome)
      requires key in current.fields && current.fields[key].Object?
      modifies this
      ensures (status, current) ==
        (SetItems(old(current).fields[key].d, xs, xs).0, old(current).Set(key, Object(SetItems(old(current).fields[key].d, xs, xs).1)))
    {
      var inner := current.fields[key].d;
      ghost var start := current;
      SetSame(start, key);
      var j := 0;
      while j < |xs|
        invariant 0 <= j <= |xs|
        invariant SetItems(inner, xs[..j], xs).0 == Pass
        invariant current == start.Set(key, Object(SetItems(inner, xs[..j], xs).1))
      {
        var d := current.fields[key].d;
        assert xs[..j + 1][..j] == xs[..j];
        match ListItem(xs, xs[j])
        case Failure(e) =>
          SetItemsMeaning(inner, xs[..j], xs);
          SetItemsStops(inner, xs, xs, j);
          return Fail(e);
        case Success(kv) =>
          SetTwice(start, key, Object(d), Object(d.Set(kv.0, kv.1)));
          current := current.Set(key, Object(d.Set(kv.0, kv.1)));
          j := j + 1;
      }
      assert xs[..j] == xs;
      status := Pass;
    }

    /** One pass of the loop over the user's keys. */
    method MergeKey(key: Key, value: Json) returns (status: Outcome)
      requires value.Object? ==> value.d.Keyed()
      modifies this
      ensures (status, current) == MergeOne(old(current), key, value)
    {
      if key !in current.fields || !current.fields[key].Object? {
        current := current.Set(key, value);
        return Pass;
      }
      SetSame(current, key);
      match value
      case Object(ud) =>
        MergeSubkeys(key, ud);
        status := Pass;
      case Array(xs) =>
        status := MergeListSubkeys(key, xs);
      case Text(s) =>
        if s != "" {
          return Fail(TypeError("string indices must be integers"));
        }
        status := Pass;
      case _ =>
        status := Fail(TypeError("object is not iterable"));
    }

    /** Merging the first elements of a top-level list, in place. */
    method LoadUserList(xs: seq<Json>) returns (status: Outcome)
      requires forall x :: x in xs && x.Object? ==> x.d.Keyed()
      modifies this
      ensures (status, current) == MergeItems(old(current), xs, xs)
    {
      ghost var start := current;
      var i := 0;
      while i < |xs|
        invariant 0 <= i <= |xs|
        invariant MergeItems(start, xs[..i], xs) == (Pass, current)
      {
        MergeItemsNext(start, xs, xs, i);
        match TopItem(xs, xs[i])
        case Failure(e) =>
          MergeItemsStops(start, xs, xs, i + 1);
          return Fail(e);
        case Success(kv) =>
          status := MergeKey(kv.0, kv.1);
          if status.Fail? {
            MergeItemsStops(start, xs, xs, i + 1);
            return;
          }
          i := i + 1;
      }
      assert xs[..i] == xs;
      status := Pass;
    }

    /** `load_user_config(p)` once the file at p has been parsed into `user`. */
    method LoadUserConfig(user: Json) returns (status: Outcome)
      requires FromJson(user)
      modifies this
      ensures (status, current) == LoadUserConfigSpec(old(current), user)
    {
      if user.Array? {
        status := LoadUserList(user.items);
        return;
      }
      if !user.Object? {
        status := LoadUserConfigSpec(current, user).0;
        return;
      }
      var u := user.d;
      ghost var start := current;
      var i := 0;
      while i < |u.order|
        invariant 0 <= i <= |u.order|
        invariant MergeKeys(start, u.order[..i], u.fields) == (Pass, current)
      {
        var key := u.order[i];
        MergeKeysNext(start, u.order, u.fields, i);
        status := MergeKey(key, u.fields[key]);
        if status.Fail? {
          MergeKeysStops(start, u.order, u.fields, i + 1);
          return;
        }
        i := i + 1;
      }
      assert u.order[..i] == u.order;
      status := Pass;
    }
  }

  /** The level names `configure_logger` accepts. */
  const LogLevels: seq<string> := ["DEBUG", "INFO", "WARNING", "ERROR", "CRITICAL"]

  /** `configure_logger(level=...)`: a ValueError for any other level name; the logging setup itself is not modelled. */
  method ConfigureLogger(level: string) returns (status: Outcome)
    ensures status.Pass? <==> level in LogLevels
    ensures status.Fail? ==> status.error.ValueError?
  {
    if level !in LogLevels {
      return Fail(ValueError("level"));
    }
    status := Pass;
  }
}
