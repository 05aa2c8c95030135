/** The untyped JSON tree both documents are made of, and the Python
    operations the validator applies to it: `==`, truthiness, `key in d`,
    `d.get(k, default)`, dict comprehensions that drop keys, `str()` and
    `json.dumps`. */
module Values {
  import opened Wrappers
  import opened Text

  /** A JSON node as `json.load` produces it. Object members keep their
      document order, which is the order Python iterates a dict in. */
  datatype Json =
    | Null
    | Bool(b: bool)
    | Int(i: int)
    | Str(s: string)
    | Arr(items: seq<Json>)
    | Obj(fields: Fields)

  type Fields = seq<(string, Json)>

  /** The two exceptions the validator can raise on a badly shaped document:
      `.get` called on a node that is not a dict (AttributeError), or a dict
      looked up with a list or dict as key (TypeError: unhashable type). */
  datatype PyException = NoGetAttribute(receiver: Json) | UnhashableKey(key: Json)

  predicate HasKey(f: Fields, k: string) {
    exists i | 0 <= i < |f| :: f[i].0 == k
  }

  function Keys(f: Fields): set<string> {
    set i | 0 <= i < |f| :: f[i].0
  }

  /** Distinct member names, as every dict has. */
  predicate DistinctKeys(f: Fields) {
    forall i, j | 0 <= i < j < |f| :: f[i].0 != f[j].0
  }

  /** Every object in the tree has distinct member names. */
  predicate WellFormed(j: Json)
    decreases j
  {
    match j
    case Arr(items) => forall i | 0 <= i < |items| :: WellFormed(items[i])
    case Obj(fields) => DistinctKeys(fields) && forall i | 0 <= i < |fields| :: WellFormed(fields[i].1)
    case _ => true
  }

  /** `d[k]` when `k in d`, else None: the value of the first member named `k`. */
  function Lookup(f: Fields, k: string): (r: Option<Json>)
    ensures r.Some? <==> HasKey(f, k)
    ensures r.Some? ==> (k, r.value) in f
  {
    if f == [] then None
    else if f[0].0 == k then Some(f[0].1)
    else
      assert forall i | 1 <= i < |f| :: f[i] == f[1..][i - 1];
      Lookup(f[1..], k)
  }

  /** In a dict each key has one value: the member at index `i` is what a lookup finds. */
  lemma {:induction false} LookupDistinct(f: Fields, i: nat)
    requires DistinctKeys(f) && i < |f|
    ensures Lookup(f, f[i].0) == Some(f[i].1)
  {
    if i > 0 {
      assert f[1..][i - 1] == f[i];
      LookupDistinct(f[1..], i - 1);
    }
  }

  /** Lookup only sees the first of two concatenated member lists when the key is there. */
  lemma {:induction false} LookupAppend(f: Fields, g: Fields, k: string)
    ensures Lookup(f + g, k) == if HasKey(f, k) then Lookup(f, k) else Lookup(g, k)
  {
    if f == [] {
      assert f + g == g;
    } else {
      assert (f + g)[1..] == f[1..] + g;
      assert (f + g)[0] == f[0];
      if f[0].0 == k {
        assert f[0].0 == k;
      } else {
        LookupAppend(f[1..], g, k);
        assert HasKey(f, k) <==> HasKey(f[1..], k) by {
          if HasKey(f, k) {
            var i :| 0 <= i < |f| && f[i].0 == k;
            assert f[1..][i - 1] == f[i];
          }
          if HasKey(f[1..], k) {
            var i :| 0 <= i < |f[1..]| && f[1..][i].0 == k;
            assert f[i + 1] == f[1..][i];
          }
        }
      }
    }
  }

  /** `d.get(k, default)` on an expected record. */
  function GetOr(f: Fields, k: string, default: Json): (r: Json)
    ensures HasKey(f, k) ==> Some(r) == Lookup(f, k)
    ensures !HasKey(f, k) ==> r == default
  {
    match Lookup(f, k)
    case Some(v) => v
    case None => default
  }

  /** `{k: v for k, v in d.items() if k not in drop}`: the same members in
      the same order, less those whose name is in `drop`. */
  function Without(f: Fields, drop: seq<string>): (r: Fields)
    ensures forall k :: Lookup(r, k) == if k in drop then None else Lookup(f, k)
    ensures forall i | 0 <= i < |r| :: r[i] in f && r[i].0 !in drop
    ensures |r| <= |f|
  {
    if f == [] then []
    else
      var rest := Without(f[1..], drop);
      if f[0].0 in drop then rest else [f[0]] + rest
  }

  /** The positions in `f` of the members `Without(f, drop)` keeps. */
  function KeptIndices(f: Fields, drop: seq<string>): seq<nat> {
    if f == [] then []
    else
      var rest := Shift(KeptIndices(f[1..], drop));
      if f[0].0 in drop then rest else [0] + rest
  }

  function Shift(s: seq<nat>): (r: seq<nat>)
    ensures |r| == |s| && forall i | 0 <= i < |s| :: r[i] == s[i] + 1
  {
    seq(|s|, i requires 0 <= i < |s| => s[i] + 1)
  }

  /** `r` is the subsequence of `f` at the strictly increasing positions
      `idx`, which include every member whose name is not dropped. */
  predicate KeepsInOrder(f: Fields, drop: seq<string>, r: Fields, idx: seq<nat>) {
    && |idx| == |r|
    && (forall i | 0 <= i < |idx| :: idx[i] < |f| && f[idx[i]] == r[i])
    && (forall i, j | 0 <= i < j < |idx| :: idx[i] < idx[j])
    && (forall k | 0 <= k < |f| && f[k].0 !in drop :: k in idx)
  }

  lemma {:induction false} KeptIndicesPositions(f: Fields, drop: seq<string>)
    ensures |KeptIndices(f, drop)| == |Without(f, drop)|
    ensures forall i | 0 <= i < |KeptIndices(f, drop)| ::
      KeptIndices(f, drop)[i] < |f| && f[KeptIndices(f, drop)[i]] == Without(f, drop)[i]
  {
    if f != [] {
      KeptIndicesPositions(f[1..], drop);
      var rest, r' := Shift(KeptIndices(f[1..], drop)), Without(f[1..], drop);
      ShiftedPositions(f, rest, r');
      if f[0].0 !in drop {
        PrependPosition(f, rest, r');
      }
    }
  }

  /** Positions into the tail of `f`, moved up by one, are positions into `f`. */
  lemma ShiftedPositions(f: Fields, rest: seq<nat>, r: Fields)
    requires f != [] && |rest| == |r|
    requires forall i | 0 <= i < |rest| :: rest[i] >= 1 && rest[i] - 1 < |f[1..]| && f[1..][rest[i] - 1] == r[i]
    ensures forall i | 0 <= i < |rest| :: rest[i] < |f| && f[rest[i]] == r[i]
  {
  }

  /** Keeping the head of `f` as well puts position 0 in front. */
  lemma PrependPosition(f: Fields, rest: seq<nat>, r: Fields)
    requires f != [] && |rest| == |r|
    requires forall i | 0 <= i < |rest| :: rest[i] < |f| && f[rest[i]] == r[i]
    ensures forall i | 0 <= i < |[0] + rest| :: ([0] + rest)[i] < |f| && f[([0] + rest)[i]] == ([f[0]] + r)[i]
  {
    forall i | 0 <= i < |[0] + rest| ensures ([0] + rest)[i] < |f| && f[([0] + rest)[i]] == ([f[0]] + r)[i] {
      if i > 0 {
        assert ([0] + rest)[i] == rest[i - 1] && ([f[0]] + r)[i] == r[i - 1];
      }
    }
  }

  lemma {:induction false} KeptIndicesIncreasing(f: Fields, drop: seq<string>)
    ensures forall i | 0 <= i < |KeptIndices(f, drop)| :: KeptIndices(f, drop)[i] < |f|
    ensures forall i, j | 0 <= i < j < |KeptIndices(f, drop)| :: KeptIndices(f, drop)[i] < KeptIndices(f, drop)[j]
  {
    if f != [] {
      KeptIndicesIncreasing(f[1..], drop);
    }
  }

  lemma {:induction false} KeptIndicesComplete(f: Fields, drop: seq<string>)
    ensures forall k | 0 <= k < |f| && f[k].0 !in drop :: k in KeptIndices(f, drop)
  {
    if f != [] {
      KeptIndicesComplete(f[1..], drop);
      var rest := KeptIndices(f[1..], drop);
      forall k | 1 <= k < |f| && f[k].0 !in drop ensures k in Shift(rest) {
        assert f[1..][k - 1] == f[k];
        var i :| 0 <= i < |rest| && rest[i] == k - 1;
        assert Shift(rest)[i] == k;
      }
    }
  }

  /** The comprehension keeps the members it does not drop in their
      original order: the result is the subsequence of `f` at strictly
      increasing positions, and every member whose name is not dropped is
      at one of them. */
  lemma WithoutKeepsOrder(f: Fields, drop: seq<string>)
    ensures KeepsInOrder(f, drop, Without(f, drop), KeptIndices(f, drop))
  {
    KeptIndicesPositions(f, drop);
    KeptIndicesIncreasing(f, drop);
    KeptIndicesComplete(f, drop);
  }

  /** Removing members keeps the remaining names distinct. */
  lemma {:induction false} WithoutDistinct(f: Fields, drop: seq<string>)
    requires DistinctKeys(f)
    ensures DistinctKeys(Without(f, drop))
  {
    if f != [] {
      WithoutDistinct(f[1..], drop);
      var rest := Without(f[1..], drop);
      forall i | 0 <= i < |rest| ensures rest[i].0 != f[0].0 {
        var j :| 0 <= j < |f[1..]| && f[1..][j] == rest[i];
        assert f[j + 1] == rest[i];
      }
    }
  }

  /** Python's `a == b` on JSON values: dicts are equal when they have the
      same size and every key of `a` maps in `b` to an equal value; lists are
      equal element by element; `True == 1` and `False == 0` hold. */
  predicate PyEq(a: Json, b: Json)
    decreases a
  {
    match a
    case Null => b.Null?
    case Bool(x) => (b.Bool? && b.b == x) || (b.Int? && b.i == BoolToInt(x))
    case Int(x) => (b.Int? && b.i == x) || (b.Bool? && x == BoolToInt(b.b))
    case Str(s) => b.Str? && b.s == s
    case Arr(xs) =>
      && b.Arr? && |xs| == |b.items|
      && forall i | 0 <= i < |xs| :: PyEq(xs[i], b.items[i])
    case Obj(fs) =>
      && b.Obj? && |fs| == |b.fields|
      && forall i | 0 <= i < |fs| ::
           Lookup(b.fields, fs[i].0).Some? && PyEq(fs[i].1, Lookup(b.fields, fs[i].0).value)
  }

  function BoolToInt(x: bool): int {
    if x then 1 else 0
  }

  /** Equality is reflexive on well-formed documents (a dict with a repeated
      key would not be). */
  lemma {:induction false} PyEqReflexive(a: Json)
    requires WellFormed(a)
    ensures PyEq(a, a)
  {
    match a
    case Arr(xs) =>
      forall i | 0 <= i < |xs| ensures PyEq(xs[i], xs[i]) {
        PyEqReflexive(xs[i]);
      }
    case Obj(fs) =>
      forall i | 0 <= i < |fs|
        ensures Lookup(fs, fs[i].0).Some? && PyEq(fs[i].1, Lookup(fs, fs[i].0).value)
      {
        LookupDistinct(fs, i);
        PyEqReflexive(fs[i].1);
      }
    case _ =>
  }

  /** Python truthiness of a JSON value, as `if x:` tests it. */
  predicate Truthy(j: Json) {
    match j
    case Null => false
    case Bool(x) => x
    case Int(x) => x != 0
    case Str(s) => s != ""
    case Arr(xs) => xs != []
    case Obj(fs) => fs != []
  }

  /** `node.get(key, default)` on a node of the actual document: raises when
      the node is not a dict or the key cannot be hashed; a key that is not a
      string is never found, since JSON dict keys are strings. */
  function PyGet(node: Json, key: Json, default: Json): (r: Result<Json, PyException>)
    ensures r.Failure? <==> !node.Obj? || key.Arr? || key.Obj?
    ensures r.Success? && key.Str? && HasKey(node.fields, key.s) ==> Some(r.value) == Lookup(node.fields, key.s)
    ensures r.Success? && !(key.Str? && HasKey(node.fields, key.s)) ==> r.value == default
  {
    if !node.Obj? then Failure(NoGetAttribute(node))
    else if key.Arr? || key.Obj? then Failure(UnhashableKey(key))
    else if key.Str? then Success(GetOr(node.fields, key.s, default))
    else Success(default)
  }

  /** Stand-in for `json.dumps` and `format_json_compact`: a compact JSON
      text. Its exact characters (escaping, indentation, key sorting) are
      not part of the model and no property depends on them. */
  function Render(j: Json): string
    decreases j, 0
  {
    match j
    case Null => "null"
    case Bool(x) => if x then "true" else "false"
    case Int(x) => IntToString(x)
    case Str(s) => "\"" + s + "\""
    case Arr(xs) => "[" + Join(seq(|xs|, i requires 0 <= i < |xs| => Render(xs[i])), ", ") + "]"
    case Obj(fs) => "{" + Join(seq(|fs|, i requires 0 <= i < |fs| => RenderMember(fs[i].0, fs[i].1)), ", ") + "}"
  }

  function RenderMember(k: string, v: Json): string
    decreases v, 1
  {
    "\"" + k + "\": " + Render(v)
  }

  /** Python's `str(x)` as an f-string applies it to a record field:
      a string is inserted as is. */
  function PyStr(j: Json): (r: string)
    ensures j.Str? ==> r == j.s
  {
    match j
    case Null => "None"
    case Bool(x) => if x then "True" else "False"
    case Int(x) => IntToString(x)
    case Str(s) => s
    case _ => Render(j)
  }
}
