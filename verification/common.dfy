/** Values shared by the whole model: JSON-like records as Firebase, Flask and the
    JSON files hand them to the Python code, and the few Python operations on them
    whose exact behaviour decides a branch (truthiness, `in`, subscripting, str()). */
module Common {

  datatype Option<T> = None | Some(value: T)

  /** A JSON value. Python's int and float are both `Num`. */
  datatype Value =
    | Null
    | Bool(b: bool)
    | Num(n: real)
    | Str(s: string)
    | Arr(items: seq<Value>)
    | Obj(fields: map<string, Value>)

  /** A Python dict with string keys. */
  type Record = map<string, Value>

  /** Python's truth value of a JSON value. */
  predicate Truthy(v: Value) {
    match v
    case Null => false
    case Bool(b) => b
    case Num(n) => n != 0.0
    case Str(s) => s != ""
    case Arr(items) => items != []
    case Obj(fields) => fields != map[]
  }

  /** `r.get(k, default)` */
  function Get(r: Record, k: string, default: Value): Value {
    if k in r then r[k] else default
  }

  /** The number Python's math functions see in a value (a bool counts as 0 or 1);
      None when they raise TypeError (a string, None, a list or a dict). */
  function AsNumber(v: Value): Option<real> {
    match v
    case Num(n) => Some(n)
    case Bool(b) => Some(if b then 1.0 else 0.0)
    case _ => None
  }

  /** A conversion of a string to a number that the model does not compute; None
      when it raises ValueError. */
  type FloatParser = string -> Option<real>

  /** Is `sub` a contiguous part of `s`? */
  predicate IsSubstring(sub: string, s: string)
    decreases |s|
  {
    sub <= s || (s != [] && IsSubstring(sub, s[1..]))
  }

  /** Python's `k in v` for a string `k`: a key test on a dict, a membership test on a
      list, a substring test on a string; None when Python raises TypeError. */
  function PyIn(k: string, v: Value): Option<bool> {
    match v
    case Obj(fields) => Some(k in fields)
    case Arr(items) => Some(Str(k) in items)
    case Str(s) => Some(IsSubstring(k, s))
    case _ => None
  }

  /** `all(k in v for k in keys)`: stops at the first key that is missing; None when
      `in` raises, which it does on the first key already. */
  function AllIn(keys: seq<string>, v: Value): (r: Option<bool>)
    ensures keys != [] ==> (r.None? <==> !(v.Obj? || v.Arr? || v.Str?))
    ensures r == Some(true) <==> ((keys == [] || v.Obj? || v.Arr? || v.Str?)
                                 && forall i :: 0 <= i < |keys| ==> PyIn(keys[i], v) == Some(true))
  {
    if keys == [] then Some(true)
    else match PyIn(keys[0], v)
      case None => None
      case Some(false) => Some(false)
      case Some(true) =>
        assert forall i :: 1 <= i < |keys| ==> keys[i] == keys[1..][i - 1];
        AllIn(keys[1..], v)
  }

  /** What `json.load` makes of a file path: no such file, not JSON, or a value. */
  datatype JsonFile = Missing | Undecodable | Parsed(json: Value)

  /** Python's `v[k]` for a string `k`: None when Python raises (KeyError on a dict
      without the key, TypeError on anything but a dict). */
  function Subscript(v: Value, k: string): Option<Value> {
    if v.Obj? && k in v.fields then Some(v.fields[k]) else None
  }

  /** `[(p[first], p[second]) for p in items]`: None on the KeyError or TypeError of
      an item that is not a dict with both keys. */
  function Pairs(items: seq<Value>, first: string, second: string): (r: Option<seq<(Value, Value)>>)
    ensures r.Some? ==> |r.value| == |items|
    decreases |items|
  {
    if items == [] then Some([])
    else
      var n := |items| - 1;
      match Pairs(items[..n], first, second)
      case None => None
      case Some(front) =>
        match (Subscript(items[n], first), Subscript(items[n], second))
        case (Some(x), Some(y)) => Some(front + [(x, y)])
        case _ => None
  }

  /** Each item becomes its (first, second) pair, in order; one malformed item loses
      the whole list. */
  lemma {:induction false} PairsMeaning(items: seq<Value>, first: string, second: string)
    ensures Pairs(items, first, second).None? <==>
              exists i :: 0 <= i < |items| && (Subscript(items[i], first).None? || Subscript(items[i], second).None?)
    ensures Pairs(items, first, second).Some? ==>
              forall i :: 0 <= i < |items| ==>
                Pairs(items, first, second).value[i] == (Subscript(items[i], first).value, Subscript(items[i], second).value)
    decreases |items|
  {
    if items != [] {
      var n := |items| - 1;
      PairsMeaning(items[..n], first, second);
      assert forall i :: 0 <= i < n ==> items[..n][i] == items[i];
    }
  }

  /** Python's str() of a value, as an f-string prints it; `repr` stands for the
      formatting of numbers and containers, which this model does not spell out. */
  function PyStr(v: Value, repr: Value -> string): string {
    match v
    case Str(s) => s
    case Null => "None"
    case Bool(b) => if b then "True" else "False"
    case _ => repr(v)
  }

  /** The decimal digits of n, as Python's str() of an int writes them. */
  function NatToString(n: nat): (r: string)
    ensures r != []
    ensures forall i :: 0 <= i < |r| ==> '0' <= r[i] <= '9'
    decreases n
  {
    if n < 10 then [Digit(n)] else NatToString(n / 10) + [Digit(n % 10)]
  }

  function Digit(d: nat): char
    requires d < 10
  {
    ['0', '1', '2', '3', '4', '5', '6', '7', '8', '9'][d]
  }

  /** Splits `s` at every character `isSep` accepts and drops the empty pieces, as
      Python's `str.split()` does with whitespace. */
  function Pieces(s: string, isSep: char -> bool): (r: seq<string>)
    ensures forall i :: 0 <= i < |r| ==> r[i] != []
    ensures forall i, j :: 0 <= i < |r| && 0 <= j < |r[i]| ==> !isSep(r[i][j])
    decreases |s|
  {
    if s == [] then []
    else if isSep(s[0]) then Pieces(s[1..], isSep)
    else
      var n := RunLength(s, isSep);
      [s[..n]] + Pieces(s[n..], isSep)
  }

  /** The length of the longest prefix of `s` with no separator in it. */
  function RunLength(s: string, isSep: char -> bool): (n: nat)
    ensures n <= |s|
    ensures forall j :: 0 <= j < n ==> !isSep(s[j])
    ensures n < |s| ==> isSep(s[n])
    decreases |s|
  {
    if s == [] || isSep(s[0]) then 0 else 1 + RunLength(s[1..], isSep)
  }

  /** A string with no separator in it is a single piece of itself. */
  lemma {:induction false} PiecesOfPlain(s: string, isSep: char -> bool)
    requires s != []
    requires forall j :: 0 <= j < |s| ==> !isSep(s[j])
    ensures Pieces(s, isSep) == [s]
  {
    assert !isSep(s[0]);
    assert RunLength(s, isSep) == |s|;
    assert s[..|s|] == s && s[|s|..] == [];
    assert Pieces([], isSep) == [];
  }

  /** A separator after a plain piece ends that piece. */
  lemma {:induction false} PiecesOfJoined(a: string, sep: char, rest: string, isSep: char -> bool)
    requires a != [] && isSep(sep)
    requires forall j :: 0 <= j < |a| ==> !isSep(a[j])
    ensures Pieces(a + [sep] + rest, isSep) == [a] + Pieces(rest, isSep)
  {
    var s := a + [sep] + rest;
    RunLengthOfJoined(a, sep, rest, isSep);
    assert s[..|a|] == a;
    assert s[|a|..] == [sep] + rest;
    assert ([sep] + rest)[1..] == rest;
  }

  lemma {:induction false} RunLengthOfJoined(a: string, sep: char, rest: string, isSep: char -> bool)
    requires isSep(sep)
    requires forall j :: 0 <= j < |a| ==> !isSep(a[j])
    ensures RunLength(a + [sep] + rest, isSep) == |a|
    decreases |a|
  {
    if a != [] {
      assert (a + [sep] + rest)[1..] == a[1..] + [sep] + rest;
      RunLengthOfJoined(a[1..], sep, rest, isSep);
    }
  }

  /** What shapely reports for a geometry: its area in square degrees and its
      centroid (x = longitude, y = latitude). */
  datatype Shape = Shape(area: real, x: real, y: real)

  /** The non-negative square root of a non-negative real (`** 0.5`). */
  type Sqrt = real -> real

  // ---------------------------------------------------------------------------
  // A loop that reads entries one by one

  /** What a loop body does with one entry: skip it, keep a result, or raise an
      exception that ends the loop. */
  datatype EntryOutcome<R> = Skip | Keep(result: R) | Crash

  /** The results kept so far, and whether an entry raised. */
  datatype Processed<R> = Processed(kept: seq<R>, crashed: bool)

  /** The loop over `entries`: the results kept in order, up to the first entry that
      raises. */
  function Run<T, R>(entries: seq<T>, read: T -> EntryOutcome<R>): Processed<R>
    decreases |entries|
  {
    if entries == [] then Processed([], false)
    else
      var n := |entries| - 1;
      var before := Run(entries[..n], read);
      if before.crashed then before
      else
        match read(entries[n])
        case Crash => Processed(before.kept, true)
        case Skip => before
        case Keep(r) => Processed(before.kept + [r], false)
  }

  /** The loop raises exactly when some entry raises. */
  lemma {:induction false} RunCrashes<T, R>(entries: seq<T>, read: T -> EntryOutcome<R>)
    ensures Run(entries, read).crashed <==> exists i :: 0 <= i < |entries| && read(entries[i]).Crash?
    decreases |entries|
  {
    if entries != [] {
      var n := |entries| - 1;
      RunCrashes(entries[..n], read);
      if exists i :: 0 <= i < n && read(entries[..n][i]).Crash? {
        var i :| 0 <= i < n && read(entries[..n][i]).Crash?;
        assert entries[..n][i] == entries[i];
      }
      if exists i :: 0 <= i < |entries| && read(entries[i]).Crash? {
        var i :| 0 <= i < |entries| && read(entries[i]).Crash?;
        if i < n {
          assert entries[..n][i] == entries[i];
        }
      }
    }
  }

  /** Every result kept is what some entry gave, in order of the entries, and there
      are no more results than entries. */
  lemma {:induction false} RunKeeps<T, R>(entries: seq<T>, read: T -> EntryOutcome<R>)
    ensures |Run(entries, read).kept| <= |entries|
    ensures forall k :: 0 <= k < |Run(entries, read).kept| ==>
              exists i :: 0 <= i < |entries| && read(entries[i]) == Keep(Run(entries, read).kept[k])
    decreases |entries|
  {
    if entries != [] {
      var n := |entries| - 1;
      var kept := Run(entries[..n], read).kept;
      RunKeeps(entries[..n], read);
      var all := Run(entries, read).kept;
      forall k | 0 <= k < |all|
        ensures exists i :: 0 <= i < |entries| && read(entries[i]) == Keep(all[k])
      {
        if k < |kept| {
          var i :| 0 <= i < n && read(entries[..n][i]) == Keep(kept[k]);
          assert entries[i] == entries[..n][i];
        } else {
          assert read(entries[n]) == Keep(all[k]);
        }
      }
    }
  }

  /** Once an entry has raised, the later entries change nothing. */
  lemma {:induction false} RunStops<T, R>(entries: seq<T>, read: T -> EntryOutcome<R>, i: nat)
    requires i <= |entries| && Run(entries[..i], read).crashed
    ensures Run(entries, read) == Run(entries[..i], read)
    decreases |entries|
  {
    if i < |entries| {
      var n := |entries| - 1;
      assert entries[..n][..i] == entries[..i];
      RunStops(entries[..n], read, i);
    } else {
      assert entries[..i] == entries;
    }
  }

  /** A loop that keeps every entry as it is returns all of them. */
  lemma {:induction false} RunKeepsAll<T>(entries: seq<T>, read: T -> EntryOutcome<T>)
    requires forall i :: 0 <= i < |entries| ==> read(entries[i]) == Keep(entries[i])
    ensures Run(entries, read) == Processed(entries, false)
    decreases |entries|
  {
    if entries != [] {
      var n := |entries| - 1;
      assert forall i :: 0 <= i < n ==> entries[..n][i] == entries[i];
      RunKeepsAll(entries[..n], read);
      assert read(entries[n]) == Keep(entries[n]);
      assert Run(entries, read) == Processed(entries[..n] + [entries[n]], false);
      assert entries[..n] + [entries[n]] == entries;
    }
  }

  /** One step of the loop: entry i after the entries before it. */
  lemma RunStep<T, R>(entries: seq<T>, read: T -> EntryOutcome<R>, i: nat)
    requires i < |entries|
    ensures Run(entries[..i + 1], read) ==
              var before := Run(entries[..i], read);
              if before.crashed then before
              else match read(entries[i])
                   case Crash => Processed(before.kept, true)
                   case Skip => before
                   case Keep(r) => Processed(before.kept + [r], false)
  {
    assert entries[..i + 1][..i] == entries[..i];
  }
}
