/** The explainer `get_mismatch_reason` in its dependency-free form (the
    branch taken when DeepDiff or colorama is missing): it names every
    missing or differing dict key along dot-joined paths, reports a list
    difference once, and describes a differing leaf by its two values. */
module Mismatch {
  import opened Wrappers
  import opened Text
  import opened Values
  import opened Subset

  /** `f"{path}.{key}" if path else key`. */
  function KeyPath(path: string, key: string): string {
    if path != "" then path + "." + key else key
  }

  /** `" at " + path` unless the path is the root. */
  function Location(path: string): string {
    if path != "" then " at " + path else ""
  }

  /** A leaf in a reason: strings in single quotes, anything else as JSON text. */
  function LeafText(j: Json): string {
    if j.Str? then "'" + j.s + "'" else Render(j)
  }

  function MissingKeyMessage(keyPath: string): string {
    "'" + keyPath + "' missing"
  }

  function ListMessage(path: string): string {
    if path != "" then "list content mismatch at " + path else "list content mismatch"
  }

  /** `get_mismatch_reason(expected, actual, path)`: None when the two are
      equal, otherwise a non-empty explanation (None too when two dicts
      differ only by keys the expected dict does not have). */
  function Reason(e: Json, a: Json, path: string): (r: Option<string>)
    decreases e, 1
    ensures r.Some? ==> r.value != ""
  {
    if PyEq(e, a) then None
    else if e.Obj? && a.Obj? then
      var parts := KeyParts(e, a.fields, path, |e.fields|);
      if parts == [] then None else Some(Join(parts, "; "))
    else if e.Arr? && a.Arr? then Some(ListMessage(path))
    else Some("expected " + LeafText(e) + ", got " + LeafText(a) + Location(path))
  }

  /** The messages the key loop collects from the first `n` keys of the
      expected dict, in key order. */
  function KeyParts(e: Json, af: Fields, path: string, n: nat): (parts: seq<string>)
    requires e.Obj? && n <= |e.fields|
    decreases e, 0, n
    ensures forall m | 0 <= m < |parts| :: parts[m] != ""
  {
    if n == 0 then []
    else
      var part := KeyPart(e.fields[n - 1].0, e.fields[n - 1].1, af, path);
      KeyParts(e, af, path, n - 1) + (if part.Some? && part.value != "" then [part.value] else [])
  }

  /** What one expected key contributes: a missing-key message, or the
      recursive reason for its value. */
  function KeyPart(k: string, v: Json, af: Fields, path: string): (r: Option<string>)
    decreases v, 2
    ensures r.Some? ==> r.value != ""
  {
    if !HasKey(af, k) then Some(MissingKeyMessage(KeyPath(path, k)))
    else Reason(v, Lookup(af, k).value, KeyPath(path, k))
  }

  /** The source's explainer, with its loop over the expected keys. */
  method MismatchReason(e: Json, a: Json, path: string) returns (r: Option<string>)
    decreases e
    ensures r == Reason(e, a, path)
  {
    if PyEq(e, a) {
      return None;
    }
    if e.Obj? && a.Obj? {
      var mismatched: seq<string> := [];
      var i := 0;
      while i < |e.fields|
        invariant 0 <= i <= |e.fields|
        invariant mismatched == KeyParts(e, a.fields, path, i)
      {
        var (key, value) := e.fields[i];
        var keyPath := KeyPath(path, key);
        if !HasKey(a.fields, key) {
          mismatched := mismatched + [MissingKeyMessage(keyPath)];
        } else {
          var reason := MismatchReason(value, Lookup(a.fields, key).value, keyPath);
          if reason.Some? && reason.value != "" {
            mismatched := mismatched + [reason.value];
          }
        }
        i := i + 1;
      }
      r := if mismatched != [] then Some(Join(mismatched, "; ")) else None;
    } else if e.Arr? && a.Arr? {
      r := Some(ListMessage(path));
    } else {
      r := Some("expected " + LeafText(e) + ", got " + LeafText(a) + Location(path));
    }
  }

  /** The contribution of expected key number `i`. */
  function PartAt(e: Json, af: Fields, path: string, i: nat): Option<string>
    requires e.Obj? && i < |e.fields|
  {
    KeyPart(e.fields[i].0, e.fields[i].1, af, path)
  }

  /** The contributions of the first `n` expected keys, in key order. */
  function Contributions(e: Json, af: Fields, path: string, n: nat): (cs: seq<Option<string>>)
    requires e.Obj? && n <= |e.fields|
    ensures |cs| == n
    ensures forall i | 0 <= i < n :: cs[i] == PartAt(e, af, path, i)
  {
    seq(n, i requires 0 <= i < n => PartAt(e, af, path, i))
  }

  /** The values present in `cs`, in order. */
  function Present(cs: seq<Option<string>>): seq<string> {
    if cs == [] then []
    else Present(cs[..|cs| - 1]) + (if cs[|cs| - 1].Some? then [cs[|cs| - 1].value] else [])
  }

  /** How many entries of `cs` are present. */
  function CountPresent(cs: seq<Option<string>>): nat {
    if cs == [] then 0
    else CountPresent(cs[..|cs| - 1]) + (if cs[|cs| - 1].Some? then 1 else 0)
  }

  /** The key loop collects the present contributions. */
  lemma {:induction false} KeyPartsArePresent(e: Json, af: Fields, path: string, n: nat)
    requires e.Obj? && n <= |e.fields|
    ensures KeyParts(e, af, path, n) == Present(Contributions(e, af, path, n))
  {
    if n > 0 {
      KeyPartsArePresent(e, af, path, n - 1);
      assert Contributions(e, af, path, n)[..n - 1] == Contributions(e, af, path, n - 1);
    }
  }

  /** Present values: one per present entry, at the position given by the
      number of present entries before it; none exactly when no entry is. */
  lemma {:induction false} PresentInOrder(cs: seq<Option<string>>)
    ensures |Present(cs)| == CountPresent(cs)
    ensures forall i | 0 <= i < |cs| && cs[i].Some? ::
      && CountPresent(cs[..i]) < |Present(cs)|
      && Present(cs)[CountPresent(cs[..i])] == cs[i].value
    ensures Present(cs) == [] <==> forall i | 0 <= i < |cs| :: cs[i].None?
  {
    if cs != [] {
      var n := |cs| - 1;
      var front := cs[..n];
      PresentInOrder(front);
      forall i | 0 <= i < |cs| && cs[i].Some?
        ensures CountPresent(cs[..i]) < |Present(cs)|
        ensures Present(cs)[CountPresent(cs[..i])] == cs[i].value
      {
        if i < n {
          assert front[i] == cs[i];
          assert front[..i] == cs[..i];
        } else {
          assert cs[..i] == front;
        }
      }
      if Present(cs) == [] {
        forall i | 0 <= i < |cs| ensures cs[i].None? {
          if i < n {
            assert front[i] == cs[i];
          }
        }
      }
      if forall i | 0 <= i < |cs| :: cs[i].None? {
        forall i | 0 <= i < n ensures front[i].None? {
          assert front[i] == cs[i];
        }
      }
    }
  }

  /** The key loop collects exactly one message per failing key, in the
      order of the expected keys: the message of key `i` sits at the
      position given by the number of failing keys before it, and nothing
      is collected exactly when no key fails. */
  lemma OnePartPerFailingKey(e: Json, af: Fields, path: string)
    requires e.Obj?
    ensures var cs := Contributions(e, af, path, |e.fields|);
      && |KeyParts(e, af, path, |e.fields|)| == CountPresent(cs)
      && (forall i | 0 <= i < |cs| && cs[i].Some? ::
            && CountPresent(cs[..i]) < |KeyParts(e, af, path, |e.fields|)|
            && KeyParts(e, af, path, |e.fields|)[CountPresent(cs[..i])] == cs[i].value)
      && (KeyParts(e, af, path, |e.fields|) == [] <==> forall i | 0 <= i < |cs| :: cs[i].None?)
  {
    KeyPartsArePresent(e, af, path, |e.fields|);
    PresentInOrder(Contributions(e, af, path, |e.fields|));
  }

  /** A missing expected key is reported as `'<path.key>' missing`. */
  lemma MissingKeyPart(k: string, v: Json, af: Fields, path: string)
    requires !HasKey(af, k)
    ensures KeyPart(k, v, af, path) == Some("'" + (if path == "" then k else path + "." + k) + "' missing")
  {
  }

  /** Dict against dict: there is a reason exactly when some expected key is
      missing from the actual dict or has a reason of its own. */
  lemma ObjectReasonIff(e: Json, a: Json, path: string)
    requires e.Obj? && a.Obj?
    ensures Reason(e, a, path).Some? <==>
      exists i | 0 <= i < |e.fields| ::
        || !HasKey(a.fields, e.fields[i].0)
        || Reason(e.fields[i].1, Lookup(a.fields, e.fields[i].0).value, KeyPath(path, e.fields[i].0)).Some?
  {
    var n := |e.fields|;
    forall i | 0 <= i < n
      ensures PartAt(e, a.fields, path, i).Some? <==>
        || !HasKey(a.fields, e.fields[i].0)
        || Reason(e.fields[i].1, Lookup(a.fields, e.fields[i].0).value, KeyPath(path, e.fields[i].0)).Some?
    {
    }
    OnePartPerFailingKey(e, a.fields, path);
    if PyEq(e, a) {
      forall i | 0 <= i < n ensures PartAt(e, a.fields, path, i).None? {
        var (k, v) := e.fields[i];
        assert Lookup(a.fields, k).Some? && PyEq(v, Lookup(a.fields, k).value);
        assert Reason(v, Lookup(a.fields, k).value, KeyPath(path, k)).None?;
      }
    }
  }

  /** Comparing a well-formed node with itself gives no reason. */
  lemma ReasonOfEqualIsNone(x: Json, path: string)
    requires WellFormed(x)
    ensures Reason(x, x, path) == None
  {
    PyEqReflexive(x);
  }

  /** Whenever the subset check fails, the explainer has a reason to give:
      a failed record's detail never reads "Reason: None". */
  lemma {:induction false} ReasonExplainsEveryFailure(e: Json, a: Json, path: string)
    ensures !IsSubset(e, a) ==> Reason(e, a, path).Some?
  {
    if Reason(e, a, path).None? {
      if PyEq(e, a) {
        EqualImpliesSubset(e, a);
      } else {
        assert e.Obj? && a.Obj?;
        OnePartPerFailingKey(e, a.fields, path);
        forall i | 0 <= i < |e.fields|
          ensures HasKey(a.fields, e.fields[i].0) && IsSubset(e.fields[i].1, Lookup(a.fields, e.fields[i].0).value)
        {
          assert PartAt(e, a.fields, path, i).None?;
          ReasonExplainsEveryFailure(e.fields[i].1, Lookup(a.fields, e.fields[i].0).value, KeyPath(path, e.fields[i].0));
        }
      }
    }
  }

  /** Lists get one coarse message that depends only on the path, and a
      differing leaf is described by both values, followed by its location
      unless it is the root. */
  lemma CoarseListAndLeafReasons(e: Json, a: Json, path: string)
    requires !PyEq(e, a)
    ensures e.Arr? && a.Arr? ==>
      Reason(e, a, path) == Some(if path == "" then "list content mismatch" else "list content mismatch at " + path)
    ensures !(e.Obj? && a.Obj?) && !(e.Arr? && a.Arr?) ==>
      Reason(e, a, "") == Some("expected " + LeafText(e) + ", got " + LeafText(a))
    ensures !(e.Obj? && a.Obj?) && !(e.Arr? && a.Arr?) && path != "" ==>
      Reason(e, a, path) == Some("expected " + LeafText(e) + ", got " + LeafText(a) + " at " + path)
  {
    var leaf := "expected " + LeafText(e) + ", got " + LeafText(a);
    assert leaf + Location("") == leaf;
    if path != "" {
      assert leaf + Location(path) == leaf + " at " + path;
    }
  }
}
