/** `_extract_jsons_impl`: two pointers and a stack. */
module JsonExtraction {
  import opened Braces
  import opened Common

  datatype Loaded<V, E> = Parsed(value: V) | Refused(error: E)

  function Objects<V, E>(t: string, spans: seq<Interval>, loads: string -> Loaded<V, E>): seq<V> {
    if spans == [] then []
    else
      var r := loads(Piece(t, spans[0]));
      (if r.Parsed? then [r.value] else []) + Objects(t, spans[1..], loads)
  }

  function Errors<V, E>(t: string, spans: seq<Interval>, loads: string -> Loaded<V, E>): seq<E> {
    if spans == [] then []
    else
      var r := loads(Piece(t, spans[0]));
      (if r.Refused? then [r.error] else []) + Errors(t, spans[1..], loads)
  }

  /** The interval that starts at `s`, and then the intervals after it. */
  lemma {:induction false} FirstPiece<V, E>(t: string, s: nat, loads: string -> Loaded<V, E>)
    requires s < |t| && t[s] == '{' && Close(t, s, 0) < |t|
    ensures var c := Close(t, s, 0); var r := loads(t[s..c + 1]);
      && Objects(t, Tops(t, s), loads) == (if r.Parsed? then [r.value] else []) + Objects(t, Tops(t, c + 1), loads)
      && Errors(t, Tops(t, s), loads) == (if r.Refused? then [r.error] else []) + Errors(t, Tops(t, c + 1), loads)
  {
    assert Tops(t, s)[1..] == Tops(t, Close(t, s, 0) + 1);
    CloseMatches(t, s);
  }

  datatype Found<V, E> = Found(objs: seq<V>, errs: seq<E>)
  {
    function Add(r: Loaded<V, E>): Found<V, E> {
      match r
      case Parsed(v) => Found(objs + [v], errs)
      case Refused(e) => Found(objs, errs + [e])
    }
  }

  /** The outcome of scanning on from `s`, given what was found before. */
  ghost function Scan<V, E>(t: string, s: nat, found: Found<V, E>, loads: string -> Loaded<V, E>): Found<V, E>
    requires s <= |t|
    decreases |t| - s
  {
    if s == |t| then found
    else
      var c := Close(t, s, 0);
      if t[s] == '{' && c < |t| then Scan(t, c + 1, found.Add(loads(t[s..c + 1])), loads)
      else Scan(t, s + 1, found, loads)
  }

  /** What is found first and then the rest is what is found altogether. */
  lemma {:induction false} Regroup<V, E>(
    found: Found<V, E>, r: Loaded<V, E>, objs: seq<V>, errs: seq<E>, allObjs: seq<V>, allErrs: seq<E>)
    requires allObjs == (if r.Parsed? then [r.value] else []) + objs
    requires allErrs == (if r.Refused? then [r.error] else []) + errs
    ensures Found(found.Add(r).objs + objs, found.Add(r).errs + errs) ==
      Found(found.objs + allObjs, found.errs + allErrs)
  {
  }

  lemma {:induction false} ScanFinds<V, E>(t: string, s: nat, found: Found<V, E>, loads: string -> Loaded<V, E>)
    requires s <= |t|
    ensures Scan(t, s, found, loads) ==
      Found(found.objs + Objects(t, Tops(t, s), loads), found.errs + Errors(t, Tops(t, s), loads))
    decreases |t| - s
  {
    if s == |t| {
    } else {
      var c := Close(t, s, 0);
      if t[s] == '{' && c < |t| {
        FirstPiece(t, s, loads);
        var r := loads(t[s..c + 1]);
        ScanFinds(t, c + 1, found.Add(r), loads);
        var rest := Tops(t, c + 1);
        Regroup(found, r, Objects(t, rest, loads), Errors(t, rest, loads),
                Objects(t, Tops(t, s), loads), Errors(t, Tops(t, s), loads));
      } else {
        ScanFinds(t, s + 1, found, loads);
      }
    }
  }

  /** Every maximal interval gives its object or its error, and there is nothing else. */
  lemma {:induction false} FoundExactly<V, E>(t: string, spans: seq<Interval>, loads: string -> Loaded<V, E>)
    ensures forall v :: v in Objects(t, spans, loads) <==> exists k <- spans :: loads(Piece(t, k)) == Parsed(v)
    ensures forall e :: e in Errors(t, spans, loads) <==> exists k <- spans :: loads(Piece(t, k)) == Refused(e)
    ensures |Objects(t, spans, loads)| + |Errors(t, spans, loads)| == |spans|
    decreases |spans|
  {
    if spans != [] {
      FoundExactly(t, spans[1..], loads);
      assert forall k :: k in spans <==> k == spans[0] || k in spans[1..];
    }
  }

  /** Objects and errors come in the order of their intervals. */
  lemma {:induction false} FoundInOrder<V, E>(
    t: string, a: seq<Interval>, b: seq<Interval>, loads: string -> Loaded<V, E>)
    ensures Objects(t, a + b, loads) == Objects(t, a, loads) + Objects(t, b, loads)
    ensures Errors(t, a + b, loads) == Errors(t, a, loads) + Errors(t, b, loads)
    decreases |a|
  {
    if a == [] {
      assert a + b == b;
    } else {
      FirstThenRest(a, b);
      FoundInOrder(t, a[1..], b, loads);
      var r := loads(Piece(t, a[0]));
      Assoc(if r.Parsed? then [r.value] else [], Objects(t, a[1..], loads), Objects(t, b, loads));
      Assoc(if r.Refused? then [r.error] else [], Errors(t, a[1..], loads), Errors(t, b, loads));
    }
  }

  /** Every maximal interval is handed to `loads` once, left to right, and nothing else is. */
  method ExtractJsonsImpl<V, E>(t: string, loads: string -> Loaded<V, E>) returns (objs: seq<V>, errs: seq<E>)
    ensures objs == Objects(t, Tops(t, 0), loads)
    ensures errs == Errors(t, Tops(t, 0), loads)
  {
    ScanFinds(t, 0, Found([], []), loads);
    objs, errs := [], [];
    var start := 0;
    while start < |t|
      invariant start <= |t| && Scan(t, start, Found(objs, errs), loads) == Scan(t, 0, Found([], []), loads)
      decreases |t| - start
    {
      if t[start] != '{' {
        start := start + 1;
        continue;
      }
      var end := start;
      var stack: string := "";
      var prevNumValidations := |objs| + |errs|;
      ghost var closing := Close(t, start, 0);
      while end < |t|
        invariant start <= end <= |t|
        invariant closing == Close(t, end, |stack|)
        invariant end > start ==> |stack| > 0
        invariant |objs| + |errs| == prevNumValidations
        decreases |t| - end
      {
        if t[end] == '{' {
          stack := stack + [t[end]];
        } else if t[end] == '}' {
          if |stack| == 0 {
            assert false;
            break;
          }
          stack := stack[..|stack| - 1];
          if |stack| == 0 {
            var potentialJson := t[start..end + 1];
            match loads(potentialJson) {
              case Parsed(value) => objs := objs + [value];
              case Refused(error) => errs := errs + [error];
            }
            break;
          }
        }
        end := end + 1;
      }
      if prevNumValidations < |objs| + |errs| {
        start := end + 1;
      } else {
        start := start + 1;
      }
    }
  }
}
