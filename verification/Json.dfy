/** JSON trees as the unstructured client sees them, and the nested-field
    accessors the operator uses on them.  The top level of an object is a map,
    a path is a non-empty sequence of field names. */
module Json {
  import opened Wrappers

  datatype Json =
    | JNull
    | JBool(b: bool)
    | JNum(n: int)
    | JStr(s: string)
    | JArr(items: seq<Json>)
    | JObj(fields: map<string, Json>)

  type Object = map<string, Json>

  type Path = p: seq<string> | |p| > 0 witness ["spec"]

  const BLOCKED := "value cannot be set because an intermediate field is not a map"

  /** One assignment of a value to a path. */
  datatype Write = Write(path: Path, value: Json)

  /** The value stored at a path, if every step of the path exists. */
  function Lookup(o: Object, p: Path): Option<Json>
    decreases |p|
  {
    if p[0] !in o then None
    else if |p| == 1 then Some(o[p[0]])
    else match o[p[0]]
      case JObj(m) => Lookup(m, p[1..])
      case _ => None
  }

  /** The map below field k, empty if there is none. */
  function Child(o: Object, k: string): Object {
    if k in o && o[k].JObj? then o[k].fields else map[]
  }

  /** Field k holds something that is not a map. */
  predicate Blocked(o: Object, k: string) {
    k in o && !o[k].JObj?
  }

  /** uns.SetNestedField: creates missing intermediate maps and refuses to
      step through an existing value that is not a map. */
  function SetNested(o: Object, p: Path, v: Json): (r: Result<Object>)
    ensures r.Err? ==> r.error == BLOCKED
    decreases |p|
  {
    if |p| == 1 then Ok(o[p[0] := v])
    else if Blocked(o, p[0]) then Err(BLOCKED)
    else
      var inner :- SetNested(Child(o, p[0]), p[1..], v);
      Ok(o[p[0] := JObj(inner)])
  }

  /** What a JSON merge patch (RFC 7386) does with one changed leaf: like
      SetNested, but a value in the way is replaced by a map. */
  function ForceNested(o: Object, p: Path, v: Json): Object
    decreases |p|
  {
    if |p| == 1 then o[p[0] := v]
    else o[p[0] := JObj(ForceNested(Child(o, p[0]), p[1..], v))]
  }

  /** Writes applied in order, stopping at the first error. */
  function WriteAll(o: Object, ws: seq<Write>): Result<Object>
    decreases |ws|
  {
    if ws == [] then Ok(o)
    else
      var o1 :- SetNested(o, ws[0].path, ws[0].value);
      WriteAll(o1, ws[1..])
  }

  /** The part of WriteAll a merge patch computed against `read` sends,
      applied to the object `o` the server holds by then. */
  function MergeAll(read: Object, o: Object, ws: seq<Write>): Object
    decreases |ws|
  {
    if ws == [] then o
    else
      var w := ws[0];
      MergeAll(read, if Lookup(read, w.path) == Some(w.value) then o else ForceNested(o, w.path, w.value), ws[1..])
  }

  /** Neither path is above or below the other. */
  predicate Apart(p: Path, q: Path) {
    !(p <= q) && !(q <= p)
  }

  /** No value on the way to p blocks it: every proper prefix is missing or a map. */
  predicate Open(o: Object, p: Path) {
    forall k :: 0 < k < |p| ==> Lookup(o, p[..k]).None? || Lookup(o, p[..k]).value.JObj?
  }

  predicate PathsApart(ws: seq<Write>) {
    forall i, j :: 0 <= i < j < |ws| ==> Apart(ws[i].path, ws[j].path)
  }

  predicate Touches(ws: seq<Write>, p: Path) {
    exists i :: 0 <= i < |ws| && ws[i].path == p
  }

  // ---------------------------------------------------------------- one write

  lemma LookupBelow(o: Object, p: Path, k: nat)
    requires 1 < k < |p| && !Blocked(o, p[0])
    ensures Lookup(o, p[..k]) == Lookup(Child(o, p[0]), p[1..][..k - 1])
  {
    assert p[..k][1..] == p[1..][..k - 1];
  }

  lemma {:induction false} OpenIffSettable(o: Object, p: Path, v: Json)
    ensures SetNested(o, p, v).Ok? <==> Open(o, p)
    decreases |p|
  {
    if |p| > 1 {
      assert Lookup(o, p[..1]) == if p[0] in o then Some(o[p[0]]) else None;
      if !Blocked(o, p[0]) {
        OpenIffSettable(Child(o, p[0]), p[1..], v);
        OpenBelow(o, p);
      }
    }
  }

  lemma OpenBelow(o: Object, p: Path)
    requires |p| > 1 && !Blocked(o, p[0])
    ensures Open(o, p) <==> Open(Child(o, p[0]), p[1..])
  {
    var m, q := Child(o, p[0]), p[1..];
    if Open(m, q) {
      forall k | 0 < k < |p| ensures Lookup(o, p[..k]).None? || Lookup(o, p[..k]).value.JObj? {
        if k > 1 { LookupBelow(o, p, k); }
      }
    }
    if Open(o, p) {
      forall k | 0 < k < |q| ensures Lookup(m, q[..k]).None? || Lookup(m, q[..k]).value.JObj? {
        LookupBelow(o, p, k + 1);
      }
    }
  }

  /** A write is read back at its path and is invisible at every path apart from it. */
  lemma {:induction false} SetThenLookup(o: Object, p: Path, v: Json, q: Path)
    requires SetNested(o, p, v).Ok?
    ensures Lookup(SetNested(o, p, v).value, p) == Some(v)
    ensures Apart(p, q) ==> Lookup(SetNested(o, p, v).value, q) == Lookup(o, q)
    decreases |p|
  {
    if |p| > 1 {
      var m := Child(o, p[0]);
      if |q| > 1 && q[0] == p[0] {
        SetThenLookup(m, p[1..], v, q[1..]);
        if Apart(p, q) {
          ApartTails(p, q);
        }
      } else {
        SetThenLookup(m, p[1..], v, p[1..]);
        if |q| == 1 && q[0] == p[0] { assert q <= p; }
      }
    } else if q[0] == p[0] {
      assert p <= q;
    }
  }

  lemma ApartTails(p: Path, q: Path)
    requires Apart(p, q) && p[0] == q[0]
    ensures |p| > 1 && |q| > 1 && Apart(p[1..], q[1..])
  {
    assert p == [p[0]] + p[1..] && q == [q[0]] + q[1..];
    assert p[1..] <= q[1..] ==> p <= q;
    assert q[1..] <= p[1..] ==> q <= p;
  }

  lemma {:induction false} SetTwice(o: Object, p: Path, v: Json, w: Json)
    requires SetNested(o, p, v).Ok?
    ensures SetNested(SetNested(o, p, v).value, p, w) == SetNested(o, p, w)
    decreases |p|
  {
    if |p| > 1 {
      SetTwice(Child(o, p[0]), p[1..], v, w);
      var o1 := SetNested(o, p, v).value;
      var inner := SetNested(o1[p[0]].fields, p[1..], w);
      if inner.Ok? {
        assert o1[p[0] := JObj(inner.value)] == o[p[0] := JObj(inner.value)];
      }
    } else {
      assert o[p[0] := v][p[0] := w] == o[p[0] := w];
    }
  }

  /** Writes to paths that are apart commute, errors included. */
  lemma {:induction false} SetCommutes(o: Object, p: Path, v: Json, q: Path, w: Json)
    requires Apart(p, q)
    requires SetNested(o, p, v).Ok?
    ensures SetNested(o, q, w).Ok? <==> SetNested(SetNested(o, p, v).value, q, w).Ok?
    ensures SetNested(o, q, w).Ok? ==>
              SetNested(SetNested(o, q, w).value, p, v) == SetNested(SetNested(o, p, v).value, q, w)
    decreases |p|
  {
    if p[0] == q[0] {
      ApartTails(p, q);
      SetCommutes(Child(o, p[0]), p[1..], v, q[1..], w);
      CommuteBelow(o, p, v, q, w);
    } else {
      CommuteBeside(o, p, v, q, w);
    }
  }

  lemma CommuteBelow(o: Object, p: Path, v: Json, q: Path, w: Json)
    requires |p| > 1 && |q| > 1 && p[0] == q[0] && SetNested(o, p, v).Ok?
    requires var m := Child(o, p[0]);
             var mp := SetNested(m, p[1..], v);
             var mq := SetNested(m, q[1..], w);
             && mp.Ok?
             && (mq.Ok? <==> SetNested(mp.value, q[1..], w).Ok?)
             && (mq.Ok? ==> SetNested(mq.value, p[1..], v) == SetNested(mp.value, q[1..], w))
    ensures SetNested(o, q, w).Ok? <==> SetNested(SetNested(o, p, v).value, q, w).Ok?
    ensures SetNested(o, q, w).Ok? ==>
              SetNested(SetNested(o, q, w).value, p, v) == SetNested(SetNested(o, p, v).value, q, w)
  {
    var k := p[0];
    var mp, mq := SetNested(Child(o, k), p[1..], v), SetNested(Child(o, k), q[1..], w);
    var op := o[k := JObj(mp.value)];
    assert SetNested(o, p, v) == Ok(op) && Child(op, k) == mp.value;
    if mq.Ok? {
      var oq := o[k := JObj(mq.value)];
      assert SetNested(o, q, w) == Ok(oq) && Child(oq, k) == mq.value;
      var both := SetNested(mp.value, q[1..], w).value;
      assert op[k := JObj(both)] == oq[k := JObj(both)];
    }
  }

  /** A write below field p[0] is an update of that field alone. */
  lemma SetIsUpdate(o: Object, p: Path, v: Json)
    requires SetNested(o, p, v).Ok?
    ensures p[0] in SetNested(o, p, v).value
    ensures SetNested(o, p, v).value == o[p[0] := SetNested(o, p, v).value[p[0]]]
  {
  }

  /** Only the field p[0] matters to a write at p. */
  lemma SetDependsOnField(o: Object, o': Object, p: Path, v: Json)
    requires p[0] in o <==> p[0] in o'
    requires p[0] in o ==> o[p[0]] == o'[p[0]]
    ensures SetNested(o, p, v).Ok? <==> SetNested(o', p, v).Ok?
    ensures SetNested(o, p, v).Ok? ==> SetNested(o', p, v).value[p[0]] == SetNested(o, p, v).value[p[0]]
  {
    assert Child(o, p[0]) == Child(o', p[0]);
  }

  lemma CommuteBeside(o: Object, p: Path, v: Json, q: Path, w: Json)
    requires p[0] != q[0] && SetNested(o, p, v).Ok?
    ensures SetNested(o, q, w).Ok? <==> SetNested(SetNested(o, p, v).value, q, w).Ok?
    ensures SetNested(o, q, w).Ok? ==>
              SetNested(SetNested(o, q, w).value, p, v) == SetNested(SetNested(o, p, v).value, q, w)
  {
    var op := SetNested(o, p, v).value;
    SetIsUpdate(o, p, v);
    SetDependsOnField(o, op, q, w);
    if SetNested(o, q, w).Ok? {
      var oq := SetNested(o, q, w).value;
      SetIsUpdate(o, q, w);
      SetDependsOnField(o, oq, p, v);
      SetIsUpdate(op, q, w);
      SetIsUpdate(oq, p, v);
      assert op[q[0] := oq[q[0]]] == oq[p[0] := op[p[0]]];
    }
  }

  // -------------------------------------------------------------- many writes

  /** A write that a later list overwrites leaves no trace in the final tree. */
  lemma {:induction false} OverwrittenLater(o: Object, p: Path, v: Json, ws: seq<Write>)
    requires PathsApart(ws) && Touches(ws, p)
    requires SetNested(o, p, v).Ok?
    ensures WriteAll(SetNested(o, p, v).value, ws) == WriteAll(o, ws)
    decreases |ws|
  {
    var w := ws[0];
    if w.path == p {
      SetTwice(o, p, v, w.value);
    } else {
      var i :| 0 <= i < |ws| && ws[i].path == p;
      assert ws[1..][i - 1].path == p;
      assert Apart(w.path, ws[i].path);
      SetCommutes(o, p, v, w.path, w.value);
      if SetNested(o, w.path, w.value).Ok? {
        OverwrittenLater(SetNested(o, w.path, w.value).value, p, v, ws[1..]);
      }
    }
  }

  /** Absorption: if every path of ws1 is written again by ws2, running ws1
      first makes no difference, whatever the tree. */
  lemma {:induction false} Absorption(o: Object, ws1: seq<Write>, ws2: seq<Write>)
    requires PathsApart(ws2)
    requires forall i :: 0 <= i < |ws1| ==> Touches(ws2, ws1[i].path)
    requires WriteAll(o, ws1).Ok?
    ensures WriteAll(WriteAll(o, ws1).value, ws2) == WriteAll(o, ws2)
    decreases |ws1|
  {
    if ws1 != [] {
      var o1 := SetNested(o, ws1[0].path, ws1[0].value).value;
      Absorption(o1, ws1[1..], ws2);
      OverwrittenLater(o, ws1[0].path, ws1[0].value, ws2);
    }
  }

  /** Frame: a path apart from all written paths keeps its value. */
  lemma {:induction false} WriteAllFrame(o: Object, ws: seq<Write>, q: Path)
    requires WriteAll(o, ws).Ok?
    requires forall i :: 0 <= i < |ws| ==> Apart(ws[i].path, q)
    ensures Lookup(WriteAll(o, ws).value, q) == Lookup(o, q)
    decreases |ws|
  {
    if ws != [] {
      SetThenLookup(o, ws[0].path, ws[0].value, q);
      WriteAllFrame(SetNested(o, ws[0].path, ws[0].value).value, ws[1..], q);
    }
  }

  /** Every written path reads back its own value. */
  lemma {:induction false} WriteAllReadsBack(o: Object, ws: seq<Write>, i: nat)
    requires PathsApart(ws) && WriteAll(o, ws).Ok? && i < |ws|
    ensures Lookup(WriteAll(o, ws).value, ws[i].path) == Some(ws[i].value)
    decreases |ws|
  {
    var o1 := SetNested(o, ws[0].path, ws[0].value).value;
    if i == 0 {
      SetThenLookup(o, ws[0].path, ws[0].value, ws[0].path);
      forall j | 0 <= j < |ws[1..]| ensures Apart(ws[1..][j].path, ws[0].path) {
        assert Apart(ws[0].path, ws[j + 1].path);
      }
      WriteAllFrame(o1, ws[1..], ws[0].path);
    } else {
      WriteAllReadsBack(o1, ws[1..], i - 1);
    }
  }

  /** The list of writes succeeds exactly when no value of the original tree blocks one of its paths. */
  lemma {:induction false} WriteAllIffOpen(o: Object, ws: seq<Write>)
    requires PathsApart(ws)
    ensures WriteAll(o, ws).Ok? <==> forall i :: 0 <= i < |ws| ==> Open(o, ws[i].path)
    decreases |ws|
  {
    if ws != [] {
      var w := ws[0];
      OpenIffSettable(o, w.path, w.value);
      if SetNested(o, w.path, w.value).Ok? {
        var o1 := SetNested(o, w.path, w.value).value;
        WriteAllIffOpen(o1, ws[1..]);
        forall i | 0 < i < |ws| ensures Open(o, ws[i].path) <==> Open(o1, ws[i].path) {
          assert Apart(ws[0].path, ws[i].path);
          SetCommutes(o, w.path, w.value, ws[i].path, ws[i].value);
          OpenIffSettable(o, ws[i].path, ws[i].value);
          OpenIffSettable(o1, ws[i].path, ws[i].value);
        }
        assert forall i :: 0 < i < |ws| ==> ws[1..][i - 1] == ws[i];
        assert forall i :: 0 <= i < |ws[1..]| ==> ws[1..][i] == ws[i + 1];
      }
    }
  }

  // ------------------------------------------------------------- merge patches

  lemma {:induction false} ForceIsSet(o: Object, p: Path, v: Json)
    requires SetNested(o, p, v).Ok?
    ensures SetNested(o, p, v).value == ForceNested(o, p, v)
    ensures Lookup(o, p) == Some(v) ==> ForceNested(o, p, v) == o
    decreases |p|
  {
    if |p| > 1 {
      ForceIsSet(Child(o, p[0]), p[1..], v);
    }
  }

  /** If nothing changed between the read and the patch, the merge patch
      produces exactly the object the writes produced locally. */
  lemma {:induction false} MergeIsWrite(read: Object, o: Object, ws: seq<Write>)
    requires PathsApart(ws)
    requires forall i :: 0 <= i < |ws| ==> Lookup(o, ws[i].path) == Lookup(read, ws[i].path)
    requires WriteAll(o, ws).Ok?
    ensures MergeAll(read, o, ws) == WriteAll(o, ws).value
    decreases |ws|
  {
    if ws != [] {
      var w := ws[0];
      ForceIsSet(o, w.path, w.value);
      var o1 := SetNested(o, w.path, w.value).value;
      forall i | 0 <= i < |ws[1..]| ensures Lookup(o1, ws[1..][i].path) == Lookup(read, ws[1..][i].path) {
        assert Apart(ws[0].path, ws[i + 1].path);
        SetThenLookup(o, w.path, w.value, ws[i + 1].path);
      }
      MergeIsWrite(read, o1, ws[1..]);
    }
  }

  lemma {:induction false} ForceThenLookup(o: Object, p: Path, v: Json, q: Path)
    ensures Lookup(ForceNested(o, p, v), p) == Some(v)
    ensures Apart(p, q) ==> Lookup(ForceNested(o, p, v), q) == Lookup(o, q)
    decreases |p|
  {
    if |p| > 1 {
      var m := Child(o, p[0]);
      if |q| > 1 && q[0] == p[0] {
        ForceThenLookup(m, p[1..], v, q[1..]);
        if Apart(p, q) {
          ApartTails(p, q);
          assert Lookup(map[], q[1..]) == None;
        }
      } else {
        ForceThenLookup(m, p[1..], v, p[1..]);
        if |q| == 1 && q[0] == p[0] { assert q <= p; }
      }
    } else if q[0] == p[0] {
      assert p <= q;
    }
  }

  lemma {:induction false} MergeAllFrame(read: Object, o: Object, ws: seq<Write>, q: Path)
    requires forall i :: 0 <= i < |ws| ==> Apart(ws[i].path, q)
    ensures Lookup(MergeAll(read, o, ws), q) == Lookup(o, q)
    decreases |ws|
  {
    if ws != [] {
      var w := ws[0];
      ForceThenLookup(o, w.path, w.value, q);
      MergeAllFrame(read, if Lookup(read, w.path) == Some(w.value) then o else ForceNested(o, w.path, w.value), ws[1..], q);
    }
  }

  /** What a merge patch leaves at a written path, whatever the server's object
      has become: the written value, or, where the copy that was read had that
      value already, what the server's object has there. */
  lemma {:induction false} MergeAllReadsBack(read: Object, o: Object, ws: seq<Write>, i: nat)
    requires PathsApart(ws) && i < |ws|
    ensures Lookup(MergeAll(read, o, ws), ws[i].path) ==
              if Lookup(read, ws[i].path) == Some(ws[i].value) then Lookup(o, ws[i].path) else Some(ws[i].value)
    decreases |ws|
  {
    var w := ws[0];
    var o1 := if Lookup(read, w.path) == Some(w.value) then o else ForceNested(o, w.path, w.value);
    if i == 0 {
      ForceThenLookup(o, w.path, w.value, w.path);
      forall j | 0 <= j < |ws[1..]| ensures Apart(ws[1..][j].path, w.path) {
        assert Apart(ws[0].path, ws[j + 1].path);
      }
      MergeAllFrame(read, o1, ws[1..], w.path);
    } else {
      assert Apart(ws[0].path, ws[i].path);
      ForceThenLookup(o, w.path, w.value, ws[i].path);
      MergeAllReadsBack(read, o1, ws[1..], i - 1);
    }
  }

  // ---------------------------------------------------------- a field beside them

  /** Writes below other top-level fields do not see field k. */
  lemma {:induction false} WriteAllBeside(o: Object, k: string, v: Json, ws: seq<Write>)
    requires forall i :: 0 <= i < |ws| ==> ws[i].path[0] != k
    requires WriteAll(o, ws).Ok?
    ensures WriteAll(o[k := v], ws) == Ok(WriteAll(o, ws).value[k := v])
    decreases |ws|
  {
    if ws != [] {
      var w := ws[0];
      var o1 := SetNested(o, w.path, w.value).value;
      SetDependsOnField(o, o[k := v], w.path, w.value);
      SetIsUpdate(o, w.path, w.value);
      SetIsUpdate(o[k := v], w.path, w.value);
      assert SetNested(o[k := v], w.path, w.value).value == o1[k := v];
      WriteAllBeside(o1, k, v, ws[1..]);
    }
  }
}
