/** The host platform's HTTP pieces as the SDK sees them: the outcome of a
    `fetch` (with `response.json()` already applied), header lookup, and
    `URLSearchParams` as an ordered list of key/value pairs. Percent-encoding
    is not modelled: `Serialize` joins raw keys and values. */
module Http {
  import opened Js

  /** What the response's body text parses to: a value, or the message of the SyntaxError parsing it throws. */
  datatype Body = Parsed(json: Json) | Unparsable(message: string)

  datatype Response = Response(status: int, headers: Query, body: Body)

  /** One `fetch`: rejected with an Error (network failure), or a response. */
  datatype Transport = NetworkFailure(name: string, message: string) | Responded(response: Response)

  /** The Fetch standard's null body statuses: such a response carries no
      body, whatever the server wrote after the headers. */
  predicate NullBodyStatus(status: int) {
    status == 101 || status == 103 || status == 204 || status == 205 || status == 304
  }

  /** A response whose body `response.json()` can parse. */
  predicate Readable(resp: Response) {
    resp.body.Parsed? && !NullBodyStatus(resp.status)
  }

  /** The SyntaxError message for parsing an empty text. */
  const EmptyJsonMessage := "Unexpected end of JSON input"

  /** `response.json()`: a null body reads as the empty text, which does not
      parse; otherwise the body's own verdict. */
  function ReadJson(resp: Response): (r: Result<Json>)
    ensures r.Ok? <==> Readable(resp)
    ensures r.Ok? ==> r.value == resp.body.json
    ensures r.Throw? ==> r.thrown.JsErr? && r.thrown.name == "SyntaxError"
    ensures NullBodyStatus(resp.status) ==> r == Throw(JsErr("SyntaxError", EmptyJsonMessage))
  {
    if NullBodyStatus(resp.status) then Throw(JsErr("SyntaxError", EmptyJsonMessage))
    else match resp.body
      case Unparsable(message) => Throw(JsErr("SyntaxError", message))
      case Parsed(data) => Ok(data)
  }

  /** `URLSearchParams`, a form body, or a header record: pairs in insertion order. */
  type Query = seq<(string, string)>

  /** `response.ok` */
  predicate IsOk(status: int) {
    200 <= status <= 299
  }

  /** `params.get(key)` / `record[key]`: the first value stored under `key`. */
  function Get(q: Query, key: string): Option<string> {
    if q == [] then None
    else if q[0].0 == key then Some(q[0].1)
    else Get(q[1..], key)
  }

  /** The values of every header whose name matches `name` case-insensitively, in order. */
  function HeaderValues(h: Query, name: string): (vs: seq<string>)
    ensures |vs| <= |h|
  {
    if h == [] then []
    else (if Lower(h[0].0) == Lower(name) then [h[0].1] else []) + HeaderValues(h[1..], name)
  }

  /** A value is collected exactly when some header with a matching name carries it. */
  lemma {:induction false} HeaderValuesMatch(h: Query, name: string)
    ensures HeaderValues(h, name) == [] <==> forall i :: 0 <= i < |h| ==> Lower(h[i].0) != Lower(name)
    ensures forall v :: v in HeaderValues(h, name) <==>
              exists i :: 0 <= i < |h| && Lower(h[i].0) == Lower(name) && h[i].1 == v
    decreases |h|
  {
    if h != [] {
      HeaderValuesMatch(h[1..], name);
      assert forall i :: 1 <= i < |h| ==> h[i] == h[1..][i - 1];
    }
  }

  /** `response.headers.get(name)`: null when no header matches; otherwise the
      values of all matching headers joined with ", ". */
  function HeaderGet(h: Query, name: string): (r: Option<string>)
    ensures r.None? <==> HeaderValues(h, name) == []
    ensures r.Some? ==> r.value == Join(HeaderValues(h, name), ", ")
  {
    var vs := HeaderValues(h, name);
    if vs == [] then None else Some(Join(vs, ", "))
  }

  /** A header read is null exactly when no header name matches. */
  lemma HeaderGetNone(h: Query, name: string)
    ensures HeaderGet(h, name).None? <==> forall i :: 0 <= i < |h| ==> Lower(h[i].0) != Lower(name)
  {
    HeaderValuesMatch(h, name);
  }

  /** A header sent once reads back as its own value; sent twice, as both values joined. */
  lemma HeaderGetJoins(h: Query, name: string, a: string, b: string)
    ensures HeaderGet([(name, a)], name) == Some(a)
    ensures HeaderGet([(name, a), (name, b)], name) == Some(a + ", " + b)
  {
    assert HeaderValues([(name, a)], name) == [a] by {
      assert [(name, a)][1..] == [];
    }
    assert HeaderValues([(name, a), (name, b)], name) == [a, b] by {
      assert [(name, a), (name, b)][1..] == [(name, b)];
      assert [(name, b)][1..] == [];
    }
    assert [a, b][1..] == [b];
    assert Join([a, b], ", ") == a + ", " + Join([b], ", ");
  }

  /** `params.toString()` without percent-encoding. */
  function Serialize(q: Query): (s: string)
    ensures |s| + 1 >= 2 * |q|
  {
    if q == [] then ""
    else if |q| == 1 then q[0].0 + "=" + q[0].1
    else q[0].0 + "=" + q[0].1 + "&" + Serialize(q[1..])
  }

  /** Every pair contributes at least its `=`, so the serialised query is
      empty exactly when no pair was appended. */
  lemma SerializeEmptyIff(q: Query)
    ensures Serialize(q) == "" <==> q == []
  {
    if q != [] {
      assert |Serialize(q)| >= |q[0].0 + "="| > 0;
    }
  }

  /** The pairs of `cands` whose value is truthy, in order, with `String(value)`:
      what a run of `if (v) params.append(k, String(v))` statements builds. */
  function Keep(cands: seq<Prop>): (q: Query)
    ensures |q| <= |cands|
  {
    if cands == [] then []
    else
      var last := cands[|cands| - 1];
      Keep(cands[..|cands| - 1]) + (if Truthy(last.val) then [(last.key, Display(last.val))] else [])
  }

  lemma {:induction false} KeepAppend(a: seq<Prop>, b: seq<Prop>)
    ensures Keep(a + b) == Keep(a) + Keep(b)
    decreases |b|
  {
    if b == [] {
      assert a + b == a;
    } else {
      var b' := b[..|b| - 1];
      assert (a + b)[..|a + b| - 1] == a + b';
      assert (a + b)[|a + b| - 1] == b[|b| - 1];
      KeepAppend(a, b');
    }
  }

  /** A truthy candidate lands in the query at the position given by the number
      of truthy candidates before it: pairs keep the candidates' fixed order. */
  lemma KeepPosition(cands: seq<Prop>, i: nat)
    requires i < |cands| && Truthy(cands[i].val)
    ensures |Keep(cands[..i])| < |Keep(cands)|
    ensures Keep(cands)[|Keep(cands[..i])|] == (cands[i].key, Display(cands[i].val))
  {
    assert cands == cands[..i] + [cands[i]] + cands[i + 1..];
    KeepAppend(cands[..i] + [cands[i]], cands[i + 1..]);
    KeepAppend(cands[..i], [cands[i]]);
    assert Keep([cands[i]]) == [(cands[i].key, Display(cands[i].val))] by {
      assert [cands[i]][..0] == [];
    }
  }

  /** A pair is in the query exactly when some candidate with that key has a
      truthy value whose string form is the pair's value. */
  lemma {:induction false} KeepMembership(cands: seq<Prop>, key: string, value: string)
    ensures (key, value) in Keep(cands) <==>
            exists i :: 0 <= i < |cands| && cands[i].key == key && Truthy(cands[i].val)
                        && Display(cands[i].val) == value
    decreases |cands|
  {
    if cands != [] {
      var init := cands[..|cands| - 1];
      KeepMembership(init, key, value);
      if (key, value) in Keep(init) {
        var i :| 0 <= i < |init| && init[i].key == key && Truthy(init[i].val) && Display(init[i].val) == value;
        assert cands[i] == init[i];
      }
      if exists i :: 0 <= i < |cands| && cands[i].key == key && Truthy(cands[i].val)
                     && Display(cands[i].val) == value {
        var i :| 0 <= i < |cands| && cands[i].key == key && Truthy(cands[i].val) && Display(cands[i].val) == value;
        if i < |init| {
          assert init[i] == cands[i];
        }
      }
    }
  }

  lemma {:induction false} GetAppend(a: Query, b: Query, key: string)
    ensures Get(a + b, key) == if Get(a, key).Some? then Get(a, key) else Get(b, key)
    decreases |a|
  {
    if a != [] {
      assert (a + b)[1..] == a[1..] + b;
      GetAppend(a[1..], b, key);
    } else {
      assert a + b == b;
    }
  }

  lemma {:induction false} GetAbsent(q: Query, key: string)
    requires forall i :: 0 <= i < |q| ==> q[i].0 != key
    ensures Get(q, key) == None
    decreases |q|
  {
    if q != [] {
      GetAbsent(q[1..], key);
    }
  }

  /** Reading back a query built by `Keep` under a key that exactly one
      candidate carries gives that candidate's string form when its value is
      truthy, and nothing otherwise. */
  lemma KeepGet(cands: seq<Prop>, i: nat, key: string)
    requires i < |cands| && cands[i].key == key
    requires forall j :: 0 <= j < |cands| && j != i ==> cands[j].key != key
    ensures Get(Keep(cands), key) == if Truthy(cands[i].val) then Some(Display(cands[i].val)) else None
  {
    var before, after := cands[..i], cands[i + 1..];
    assert cands == before + [cands[i]] + after;
    KeepAppend(before + [cands[i]], after);
    KeepAppend(before, [cands[i]]);
    assert Keep([cands[i]]) == (if Truthy(cands[i].val) then [(key, Display(cands[i].val))] else []) by {
      assert [cands[i]][..0] == [];
    }
    forall n | 0 <= n < |Keep(before)|
      ensures Keep(before)[n].0 != key
    {
      var pair := Keep(before)[n];
      KeepMembership(before, pair.0, pair.1);
      var j :| 0 <= j < |before| && before[j].key == pair.0 && Truthy(before[j].val) && Display(before[j].val) == pair.1;
      assert before[j] == cands[j];
    }
    GetAbsent(Keep(before), key);
    if !Truthy(cands[i].val) {
      forall n | 0 <= n < |Keep(after)|
        ensures Keep(after)[n].0 != key
      {
        var pair := Keep(after)[n];
        KeepMembership(after, pair.0, pair.1);
        var j :| 0 <= j < |after| && after[j].key == pair.0 && Truthy(after[j].val) && Display(after[j].val) == pair.1;
        assert after[j] == cands[i + 1 + j];
      }
      GetAbsent(Keep(after), key);
    }
    GetAppend(Keep(before), Keep([cands[i]]) + Keep(after), key);
    GetAppend(Keep([cands[i]]), Keep(after), key);
    assert Keep(cands) == Keep(before) + (Keep([cands[i]]) + Keep(after));
  }

  /** No two candidates share a key. */
  predicate DistinctNames(cands: seq<Prop>) {
    forall i, j :: 0 <= i < j < |cands| ==> cands[i].key != cands[j].key
  }

  /** With distinct keys, every candidate reads back from the built query:
      its string form when truthy, nothing otherwise. */
  lemma KeepReadsBack(cands: seq<Prop>, i: nat)
    requires DistinctNames(cands) && i < |cands|
    ensures Get(Keep(cands), cands[i].key) == if Truthy(cands[i].val) then Some(Display(cands[i].val)) else None
  {
    KeepGet(cands, i, cands[i].key);
  }

  /** What a truthy-guarded `append` sends for an optional string field. */
  function SentStr(o: Option<string>): Option<string> {
    if o.Some? && o.value != "" then o else None
  }

  /** What a truthy-guarded `append` sends for an optional number field. */
  function SentNum(o: Option<int>): Option<string> {
    if o.Some? && o.value != 0 then Some(IntToString(o.value)) else None
  }

  /** `if (value) params.append(key, String(value))`: one guarded append to a
      query built from the candidates `seen` so far. */
  method AppendIfTruthy(q: Query, ghost seen: seq<Prop>, key: string, value: Json) returns (r: Query)
    requires q == Keep(seen)
    ensures r == Keep(seen + [Prop(key, value)])
  {
    KeepStep(seen, key, value);
    r := q;
    if Truthy(value) {
      r := q + [(key, Display(value))];
    }
  }

  /** One more candidate considered: what `Keep` adds for it. */
  lemma KeepStep(seen: seq<Prop>, key: string, v: Json)
    ensures Keep(seen + [Prop(key, v)]) == Keep(seen) + if Truthy(v) then [(key, Display(v))] else []
  {
    assert (seen + [Prop(key, v)])[..|seen|] == seen;
  }
}
