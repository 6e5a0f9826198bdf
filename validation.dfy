/**
 * The required-field check of the handler: the required names whose value
 * in the body is falsy, in required-list order, and the 400 message built
 * from them.
 */
module Validation {
  import opened JsValues

  const RequiredFields: seq<string> :=
    ["servicio", "detalle", "tipoCliente", "urgencia", "ubicacion", "nombre", "contacto"]

  const MissingPrefix: string := "Faltan campos: "

  const Separator: string := ", "

  /** `keys.filter(k => !body[k])` */
  function Missing(keys: seq<string>, body: Json): seq<string>
    requires !body.Null?
  {
    if keys == [] then []
    else (if Truthy(Property(body, keys[0])) then [] else [keys[0]]) + Missing(keys[1..], body)
  }

  /** `missing.join(', ')` */
  function Join(xs: seq<string>, sep: string): string {
    if xs == [] then ""
    else if |xs| == 1 then xs[0]
    else xs[0] + sep + Join(xs[1..], sep)
  }

  /** The error text of the 400 response. */
  function MissingMessage(missing: seq<string>): string {
    MissingPrefix + Join(missing, Separator)
  }

  /** `a` is obtained from `b` by deleting elements, keeping the order of the rest. */
  ghost predicate IsSubsequence<T>(a: seq<T>, b: seq<T>)
    decreases |b|
  {
    if a == [] then true
    else if b == [] then false
    else (a[0] == b[0] && IsSubsequence(a[1..], b[1..])) || IsSubsequence(a, b[1..])
  }

  ghost predicate Distinct<T>(s: seq<T>) {
    forall i, j :: 0 <= i < j < |s| ==> s[i] != s[j]
  }

  /** A name is reported missing exactly when it is required and its value is falsy. */
  lemma {:induction false} MissingMembers(keys: seq<string>, body: Json)
    requires !body.Null?
    ensures forall k :: k in Missing(keys, body) <==> k in keys && !Truthy(Property(body, k))
  {
    if keys != [] {
      MissingMembers(keys[1..], body);
      assert keys == [keys[0]] + keys[1..];
    }
  }

  /** The missing list keeps the required list's order. */
  lemma {:induction false} MissingSubsequence(keys: seq<string>, body: Json)
    requires !body.Null?
    ensures IsSubsequence(Missing(keys, body), keys)
  {
    if keys != [] {
      MissingSubsequence(keys[1..], body);
      var m := Missing(keys[1..], body);
      if Truthy(Property(body, keys[0])) {
        assert Missing(keys, body) == m;
        SubsequenceSkip(m, keys);
      } else {
        assert Missing(keys, body) == [keys[0]] + m;
      }
    }
  }

  /** Deleting the first element of `b` keeps a subsequence of its tail a subsequence of `b`. */
  lemma {:induction false} SubsequenceSkip<T>(a: seq<T>, b: seq<T>)
    requires b != [] && IsSubsequence(a, b[1..])
    ensures IsSubsequence(a, b)
  {
  }

  /** Elements of a subsequence occur in the sequence. */
  lemma {:induction false} SubsequenceMembers<T>(a: seq<T>, b: seq<T>)
    requires IsSubsequence(a, b)
    ensures forall x :: x in a ==> x in b
    decreases |b|
  {
    if a != [] {
      if a[0] == b[0] && IsSubsequence(a[1..], b[1..]) {
        SubsequenceMembers(a[1..], b[1..]);
        assert a == [a[0]] + a[1..];
      } else {
        SubsequenceMembers(a, b[1..]);
      }
    }
  }

  /** A subsequence of a list without repetitions has none either. */
  lemma {:induction false} SubsequenceDistinct<T>(a: seq<T>, b: seq<T>)
    requires IsSubsequence(a, b) && Distinct(b)
    ensures Distinct(a)
    decreases |b|
  {
    if a != [] {
      if a[0] == b[0] && IsSubsequence(a[1..], b[1..]) {
        SubsequenceDistinct(a[1..], b[1..]);
        SubsequenceMembers(a[1..], b[1..]);
        forall j | 0 < j < |a| ensures a[0] != a[j] {
          assert a[j] == a[1..][j - 1] && a[j] in b[1..];
        }
      } else {
        SubsequenceDistinct(a, b[1..]);
      }
    }
  }

  /** No required name appears twice in the missing list. */
  lemma MissingDistinct(body: Json)
    requires !body.Null?
    ensures Distinct(Missing(RequiredFields, body))
  {
    MissingSubsequence(RequiredFields, body);
    SubsequenceDistinct(Missing(RequiredFields, body), RequiredFields);
  }

  /** The 400 response is chosen exactly when some required value is falsy. */
  lemma MissingEmptyIff(body: Json)
    requires !body.Null?
    ensures Missing(RequiredFields, body) == [] <==> forall k :: k in RequiredFields ==> Truthy(Property(body, k))
  {
    MissingMembers(RequiredFields, body);
    var m := Missing(RequiredFields, body);
    if m != [] { assert m[0] in m; }
  }

  /** A body that is not an object (or an empty object) lacks every required field. */
  lemma {:induction false} MissingAllFromEmpty(keys: seq<string>, body: Json)
    requires !body.Null? && (body.Obj? ==> body.fields == map[])
    ensures Missing(keys, body) == keys
  {
    if keys != [] {
      MissingAllFromEmpty(keys[1..], body);
      assert keys == [keys[0]] + keys[1..];
    }
  }

  /** Splitting a joined message at ", " (the reading a client makes of it). */
  function SplitList(s: string): (r: seq<string>)
    ensures |r| >= 1
    decreases |s|
  {
    if s == "" then [""]
    else if |s| >= 2 && s[0] == ',' && s[1] == ' ' then [""] + SplitList(s[2..])
    else
      var rest := SplitList(s[1..]);
      [[s[0]] + rest[0]] + rest[1..]
  }

  lemma {:induction false} SplitListPlain(a: string)
    requires ',' !in a
    ensures SplitList(a) == [a]
  {
    if a != "" {
      assert a[0] in a;
      assert forall c :: c in a[1..] ==> c in a;
      SplitListPlain(a[1..]);
      assert [a[0]] + a[1..] == a;
    }
  }

  lemma {:induction false} SplitListField(a: string, t: string)
    requires ',' !in a
    ensures SplitList(a + Separator + t) == [a] + SplitList(t)
  {
    var s := a + Separator + t;
    if a == "" {
      assert s == ", " + t && s[2..] == t;
    } else {
      assert a[0] in a;
      assert forall c :: c in a[1..] ==> c in a;
      SplitListField(a[1..], t);
      assert s[0] == a[0] && s[1..] == a[1..] + Separator + t;
      assert [a[0]] + a[1..] == a;
    }
  }

  /** Names without commas are recovered from their ", "-joined list. */
  lemma {:induction false} SplitJoin(xs: seq<string>)
    requires xs != []
    requires forall x :: x in xs ==> ',' !in x
    ensures SplitList(Join(xs, Separator)) == xs
  {
    if |xs| == 1 {
      SplitListPlain(xs[0]);
    } else {
      assert xs[0] in xs;
      assert forall x :: x in xs[1..] ==> x in xs;
      SplitJoin(xs[1..]);
      SplitListField(xs[0], Join(xs[1..], Separator));
      assert [xs[0]] + xs[1..] == xs;
    }
  }

  /** The 400 message names exactly the missing fields, in order, after its fixed prefix. */
  lemma MissingMessageLists(body: Json)
    requires !body.Null?
    requires Missing(RequiredFields, body) != []
    ensures var msg := MissingMessage(Missing(RequiredFields, body));
      MissingPrefix <= msg && SplitList(msg[|MissingPrefix|..]) == Missing(RequiredFields, body)
  {
    var m := Missing(RequiredFields, body);
    MissingSubsequence(RequiredFields, body);
    SubsequenceMembers(m, RequiredFields);
    var msg := MissingMessage(m);
    assert msg[|MissingPrefix|..] == Join(m, Separator);
    SplitJoin(m);
  }
}
