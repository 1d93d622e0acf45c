/** Query strings of the Octopus API client: `path?k1=v1&k2=v2...`.

    The client assembles them with f-strings in which an optional parameter
    appears as `&key=value` or as the empty string. This module gives the
    structured view (a list of key/value parameters) that such an f-string
    renders, and the value that list carries for each key. Values are
    inserted as they are, without percent-encoding, so nothing here parses
    the rendered text back. */
module Query {
  import opened Optional

  datatype Param = Param(key: string, value: string)

  function Field(p: Param): string {
    p.key + "=" + p.value
  }

  /** `&k=v` for every parameter, in order. */
  function Separated(q: seq<Param>): string
    decreases |q|
  {
    if |q| == 0 then "" else "&" + Field(q[0]) + Separated(q[1..])
  }

  /** The URL `path` carrying the parameters `q`: the bare path when there
      are none, otherwise `path?` followed by the `&`-separated fields. */
  function WithQuery(path: string, q: seq<Param>): string {
    if |q| == 0 then path else path + "?" + Field(q[0]) + Separated(q[1..])
  }

  /** The client's optional fragment: `&key=value` when a value is given,
      the empty string otherwise. */
  function OptionalField(key: string, value: Option<string>): string {
    if value.Some? then "&" + key + "=" + value.value else ""
  }

  /** The optional fragments for `keys` and `values`, concatenated in order. */
  function OptionalFields(keys: seq<string>, values: seq<Option<string>>): string
    requires |keys| == |values|
    decreases |keys|
  {
    if |keys| == 0 then "" else OptionalField(keys[0], values[0]) + OptionalFields(keys[1..], values[1..])
  }

  /** The parameters whose value is given, in the order of `keys`. */
  function Present(keys: seq<string>, values: seq<Option<string>>): seq<Param>
    requires |keys| == |values|
    decreases |keys|
  {
    if |keys| == 0 then []
    else (if values[0].Some? then [Param(keys[0], values[0].value)] else []) + Present(keys[1..], values[1..])
  }

  function Keys(q: seq<Param>): seq<string>
    decreases |q|
  {
    if |q| == 0 then [] else [q[0].key] + Keys(q[1..])
  }

  /** The value the parameter list carries for `key` (the first one). */
  function Lookup(q: seq<Param>, key: string): Option<string>
    decreases |q|
  {
    if |q| == 0 then None
    else if q[0].key == key then Some(q[0].value)
    else Lookup(q[1..], key)
  }

  /** `a` is `b` with some elements dropped: `a`'s keys appear in `b`'s order. */
  predicate IsSubsequence(a: seq<string>, b: seq<string>)
    decreases |b|
  {
    if |a| == 0 then true
    else if |b| == 0 then false
    else (a[0] == b[0] && IsSubsequence(a[1..], b[1..])) || IsSubsequence(a, b[1..])
  }

  /** The fragments of the client's f-string render exactly the present
      parameters, each as `&key=value`. */
  lemma {:induction false} SeparatedPresent(keys: seq<string>, values: seq<Option<string>>)
    requires |keys| == |values|
    ensures Separated(Present(keys, values)) == OptionalFields(keys, values)
    decreases |keys|
  {
    if |keys| > 0 {
      var rest := Present(keys[1..], values[1..]);
      SeparatedPresent(keys[1..], values[1..]);
      if values[0].Some? {
        var p := Param(keys[0], values[0].value);
        assert ([p] + rest)[1..] == rest;
      } else {
        assert Present(keys, values) == rest;
      }
    }
  }

  /** A query whose first parameter is always given renders as
      `path?k0=v0` followed by the optional fragments of the others. */
  lemma RenderWithLeadingParam(path: string, keys: seq<string>, values: seq<Option<string>>)
    requires |keys| == |values| && |keys| > 0 && values[0].Some?
    ensures WithQuery(path, Present(keys, values))
            == path + ("?" + keys[0] + "=") + values[0].value + OptionalFields(keys[1..], values[1..])
  {
    var rest := Present(keys[1..], values[1..]);
    var p := Param(keys[0], values[0].value);
    assert Present(keys, values) == [p] + rest;
    assert ([p] + rest)[1..] == rest;
    SeparatedPresent(keys[1..], values[1..]);
    var k, v := keys[0], values[0].value;
    Assoc(path + "?", k + "=", v);
    Assoc(path + "?", k, "=");
    Assoc(path, "?" + k, "=");
    Assoc(path, "?", k);
  }

  /** A query with no parameter given renders as the bare path. */
  lemma RenderNothingPresent(path: string, keys: seq<string>, values: seq<Option<string>>)
    requires |keys| == |values|
    requires forall i | 0 <= i < |values| :: values[i].None?
    ensures WithQuery(path, Present(keys, values)) == path
    ensures OptionalFields(keys, values) == ""
  {
    NothingPresent(keys, values);
  }

  lemma {:induction false} NothingPresent(keys: seq<string>, values: seq<Option<string>>)
    requires |keys| == |values|
    requires forall i | 0 <= i < |values| :: values[i].None?
    ensures Present(keys, values) == []
    ensures OptionalFields(keys, values) == ""
    decreases |keys|
  {
    if |keys| > 0 {
      assert values[0].None?;
      NothingPresent(keys[1..], values[1..]);
    }
  }

  /** The present parameters keep the order of `keys`. */
  lemma {:induction false} PresentInOrder(keys: seq<string>, values: seq<Option<string>>)
    requires |keys| == |values|
    ensures IsSubsequence(Keys(Present(keys, values)), keys)
    decreases |keys|
  {
    if |keys| > 0 {
      var rest := Present(keys[1..], values[1..]);
      PresentInOrder(keys[1..], values[1..]);
      if values[0].Some? {
        var p := Param(keys[0], values[0].value);
        assert ([p] + rest)[1..] == rest;
        assert Keys([p] + rest) == [keys[0]] + Keys(rest);
      } else {
        assert Present(keys, values) == rest;
        if |Keys(rest)| > 0 {
          assert IsSubsequence(Keys(rest), keys[1..]);
        }
      }
    }
  }

  /** No key is named twice. */
  predicate Distinct(keys: seq<string>) {
    forall i, j | 0 <= i < |keys| && 0 <= j < |keys| && i != j :: keys[i] != keys[j]
  }

  /** The query carries key `keys[i]` exactly when its value was given,
      and then carries that value, provided no other key has the same name. */
  lemma {:induction false} PresentLookup(keys: seq<string>, values: seq<Option<string>>, i: nat)
    requires |keys| == |values| && i < |keys|
    requires Distinct(keys)
    ensures Lookup(Present(keys, values), keys[i]) == values[i]
    decreases |keys|
  {
    var rest := Present(keys[1..], values[1..]);
    if i == 0 {
      forall j | 0 <= j < |keys| - 1
        ensures keys[1..][j] != keys[0]
      {
        assert keys[1..][j] == keys[j + 1];
      }
      AbsentKey(keys[1..], values[1..], keys[0]);
      if values[0].Some? {
        var p := Param(keys[0], values[0].value);
        assert Present(keys, values) == [p] + rest;
      } else {
        assert Present(keys, values) == rest;
      }
    } else {
      assert keys[1..][i - 1] == keys[i];
      assert Distinct(keys[1..]) by {
        forall a, b | 0 <= a < |keys| - 1 && 0 <= b < |keys| - 1 && a != b
          ensures keys[1..][a] != keys[1..][b]
        {
          assert keys[1..][a] == keys[a + 1] && keys[1..][b] == keys[b + 1];
        }
      }
      PresentLookup(keys[1..], values[1..], i - 1);
      assert keys[0] != keys[i];
      if values[0].Some? {
        var p := Param(keys[0], values[0].value);
        assert ([p] + rest)[1..] == rest;
      } else {
        assert Present(keys, values) == rest;
      }
    }
  }

  lemma {:induction false} AbsentKey(keys: seq<string>, values: seq<Option<string>>, key: string)
    requires |keys| == |values|
    requires forall j | 0 <= j < |keys| :: keys[j] != key
    ensures Lookup(Present(keys, values), key) == None
    decreases |keys|
  {
    if |keys| > 0 {
      var rest := Present(keys[1..], values[1..]);
      AbsentKey(keys[1..], values[1..], key);
      if values[0].Some? {
        var p := Param(keys[0], values[0].value);
        assert ([p] + rest)[1..] == rest;
      } else {
        assert Present(keys, values) == rest;
      }
    }
  }

  /** Peeling the parameter at index `i` off the optional fragments from `i` on. */
  lemma OptionalFieldsAt(keys: seq<string>, values: seq<Option<string>>, i: nat)
    requires |keys| == |values| && i < |keys|
    ensures OptionalFields(keys[i..], values[i..])
            == OptionalField(keys[i], values[i]) + OptionalFields(keys[i + 1..], values[i + 1..])
  {
    assert keys[i..][1..] == keys[i + 1..];
    assert values[i..][1..] == values[i + 1..];
  }

  /** The fragment of a given value is `&key=` followed by the value. */
  lemma GivenField(key: string, lead: string, value: Option<string>)
    requires value.Some? && lead == "&" + key + "="
    ensures OptionalField(key, value) == lead + value.value
  {
  }

  lemma Assoc(a: string, b: string, c: string)
    ensures a + (b + c) == a + b + c
  {
  }

  /** A query of four parameters that are always given followed by two
      optional ones renders as `path?k0=v0&k1=v1&k2=v2&k3=v3` and the two
      optional fragments; `lead` and `l1`..`l3` are the literal separators. */
  lemma RenderFourThenTwo(path: string, keys: seq<string>, values: seq<Option<string>>,
                          lead: string, l1: string, l2: string, l3: string)
    requires |keys| == |values| == 6
    requires values[0].Some? && values[1].Some? && values[2].Some? && values[3].Some?
    requires lead == "?" + keys[0] + "="
    requires l1 == "&" + keys[1] + "=" && l2 == "&" + keys[2] + "=" && l3 == "&" + keys[3] + "="
    ensures WithQuery(path, Present(keys, values))
            == path + lead + values[0].value + l1 + values[1].value + l2 + values[2].value
               + l3 + values[3].value + OptionalField(keys[4], values[4]) + OptionalField(keys[5], values[5])
  {
    var x := path + lead + values[0].value;
    var f1, f2, f3 := l1 + values[1].value, l2 + values[2].value, l3 + values[3].value;
    var f4, f5 := OptionalField(keys[4], values[4]), OptionalField(keys[5], values[5]);
    GivenField(keys[1], l1, values[1]);
    GivenField(keys[2], l2, values[2]);
    GivenField(keys[3], l3, values[3]);
    var tail := OptionalFields(keys[1..], values[1..]);
    assert tail == f1 + (f2 + (f3 + (f4 + f5))) by {
      OptionalFieldsAt(keys, values, 1);
      OptionalFieldsAt(keys, values, 2);
      OptionalFieldsAt(keys, values, 3);
      OptionalFieldsAt(keys, values, 4);
      OptionalFieldsAt(keys, values, 5);
      assert OptionalFields(keys[6..], values[6..]) == "";
      assert f5 + "" == f5;
    }
    calc {
      WithQuery(path, Present(keys, values));
      { RenderWithLeadingParam(path, keys, values); }
      x + tail;
      x + (f1 + (f2 + (f3 + (f4 + f5))));
      { Assoc(x, f1, f2 + (f3 + (f4 + f5))); }
      x + f1 + (f2 + (f3 + (f4 + f5)));
      { Assoc(x + f1, f2, f3 + (f4 + f5)); }
      x + f1 + f2 + (f3 + (f4 + f5));
      { Assoc(x + f1 + f2, f3, f4 + f5); }
      x + f1 + f2 + f3 + (f4 + f5);
      { Assoc(x + f1 + f2 + f3, f4, f5); }
      x + f1 + f2 + f3 + f4 + f5;
      { Assoc(x + f1 + f2, l3, values[3].value);
        Assoc(x + f1, l2, values[2].value);
        Assoc(x, l1, values[1].value); }
      path + lead + values[0].value + l1 + values[1].value + l2 + values[2].value
        + l3 + values[3].value + f4 + f5;
    }
  }

  /** A query of one parameter that is always given followed by three
      optional ones renders as `path?k0=v0` and the three optional fragments. */
  lemma RenderOneThenThree(path: string, keys: seq<string>, values: seq<Option<string>>, lead: string)
    requires |keys| == |values| == 4
    requires values[0].Some?
    requires lead == "?" + keys[0] + "="
    ensures WithQuery(path, Present(keys, values))
            == path + lead + values[0].value + OptionalField(keys[1], values[1])
               + OptionalField(keys[2], values[2]) + OptionalField(keys[3], values[3])
  {
    var x := path + lead + values[0].value;
    var f1, f2, f3 := OptionalField(keys[1], values[1]), OptionalField(keys[2], values[2]),
                      OptionalField(keys[3], values[3]);
    var tail := OptionalFields(keys[1..], values[1..]);
    assert tail == f1 + (f2 + f3) by {
      OptionalFieldsAt(keys, values, 1);
      OptionalFieldsAt(keys, values, 2);
      OptionalFieldsAt(keys, values, 3);
      assert OptionalFields(keys[4..], values[4..]) == "";
      assert f3 + "" == f3;
    }
    calc {
      WithQuery(path, Present(keys, values));
      { RenderWithLeadingParam(path, keys, values); }
      x + tail;
      { Assoc(x, f1, f2 + f3); }
      x + f1 + (f2 + f3);
      { Assoc(x + f1, f2, f3); }
      x + f1 + f2 + f3;
    }
  }

  /** `PresentLookup` for every key at once. */
  lemma PresentLookupAll(keys: seq<string>, values: seq<Option<string>>)
    requires |keys| == |values| && Distinct(keys)
    ensures forall i | 0 <= i < |keys| :: Lookup(Present(keys, values), keys[i]) == values[i]
  {
    forall i | 0 <= i < |keys|
      ensures Lookup(Present(keys, values), keys[i]) == values[i]
    {
      PresentLookup(keys, values, i);
    }
  }
}
