/** Decoded JSON values, as the Go side reads them with type assertions. */
module Json {

  datatype Option<+T> = None | Some(value: T)

  datatype Value =
    | Null
    | Bool(flag: bool)
    | Number(number: real)
    | String(text: string)
    | Array(items: seq<Value>)
    | Object(fields: Fields)

  type Fields = map<string, Value>

  /** A failed string assertion yields the empty string. */
  function TextAt(fields: Fields, key: string): string {
    if key in fields && fields[key].String? then fields[key].text else ""
  }

  /** The strings of an array, in order; other items are dropped. */
  function Strings(items: seq<Value>): seq<string> {
    if items == [] then []
    else if items[0].String? then [items[0].text] + Strings(items[1..])
    else Strings(items[1..])
  }

  function StringsAt(fields: Fields, key: string): seq<string> {
    if key in fields && fields[key].Array? then Strings(fields[key].items) else []
  }

  /** They are taken one item at a time. */
  lemma {:induction false} StringsConcat(a: seq<Value>, b: seq<Value>)
    ensures Strings(a + b) == Strings(a) + Strings(b)
  {
    if a == [] {
      assert a + b == b;
    } else {
      assert (a + b)[1..] == a[1..] + b;
      StringsConcat(a[1..], b);
    }
  }

  lemma OneString(item: Value)
    ensures Strings([item]) == if item.String? then [item.text] else []
  {
    assert [item][1..] == [];
  }

  function Encode(texts: seq<string>): seq<Value> {
    seq(|texts|, i requires 0 <= i < |texts| => String(texts[i]))
  }

  lemma {:induction false} StringsOfEncoded(texts: seq<string>)
    ensures Strings(Encode(texts)) == texts
  {
    if texts != [] {
      assert Encode(texts)[1..] == Encode(texts[1..]);
      StringsOfEncoded(texts[1..]);
    }
  }
}
