/** The option markup the client select box shows (`renderClient`). Every
    field taken from an option passes through the caller's `escape`. */
module Render {
  import opened Wrappers
  import opened Choices

  const OptionOpen: string := "<div class=\"option\">"
  const ClientOpen: string := "<div class=\"option client\">"
  const NameOpen: string := "<div class=\"name\">"
  const ExtraOpen: string := "<small class=\"extra\">"
  const DivClose: string := "</div>"
  const SmallClose: string := "</small>"
  const Separator: string := " / "

  /** A key option renders on two lines (client name, then product / key);
      any other option renders its text on one line. */
  function RenderClient(item: Choice, escape: string -> string): (html: string)
    ensures |html| >= |OptionOpen| + |DivClose|
    ensures html[..|OptionOpen| - 2] == OptionOpen[..|OptionOpen| - 2]
    ensures html[|html| - |DivClose|..] == DivClose
    ensures !item.kind.KeyChoice? ==> escape(item.text) <= html[|OptionOpen|..]
  {
    match item.kind
    case KeyChoice(name, _, product) =>
      ClientOpen + NameOpen + escape(name) + DivClose
      + ExtraOpen + escape(product) + Separator + escape(item.text) + SmallClose
      + DivClose
    case _ => OptionOpen + escape(item.text) + DivClose
  }

  /** The text of a one-line option fragment, or None if `html` is not one. */
  function OptionText(html: string): Option<string> {
    if |OptionOpen| + |DivClose| <= |html|
       && html[..|OptionOpen|] == OptionOpen
       && html[|html| - |DivClose|..] == DivClose
    then Some(html[|OptionOpen|..|html| - |DivClose|])
    else None
  }

  /** The prefix of `s` before the first `c` (all of `s` if there is none). */
  function UpTo(s: string, c: char): (r: string)
    ensures |r| <= |s| && r == s[..|r|] && c !in r
    ensures |r| == |s| || s[|r|] == c
  {
    if s == [] || s[0] == c then [] else [s[0]] + UpTo(s[1..], c)
  }

  /** The client name and the extra line (product / key) of a two-line option
      fragment, or None if `html` is not one. Each element's content runs up
      to the next '<', and the fragment must end with the closing tags of the
      extra line and of the option. */
  function ClientFields(html: string): Option<(string, string)> {
    var head := ClientOpen + NameOpen;
    var middle := DivClose + ExtraOpen;
    if |head| <= |html| && html[..|head|] == head then
      var body := html[|head|..];
      var name := UpTo(body, '<');
      var rest := body[|name|..];
      if |middle| <= |rest| && rest[..|middle|] == middle then
        var extra := UpTo(rest[|middle|..], '<');
        if rest[|middle|..][|extra|..] == SmallClose + DivClose
        then Some((name, extra))
        else None
      else None
    else None
  }

  lemma {:induction false} UpToConcat(a: string, b: string, c: char)
    requires c !in a && |b| > 0 && b[0] == c
    ensures UpTo(a + b, c) == a
  {
    if a != [] {
      assert (a + b)[1..] == a[1..] + b;
      UpToConcat(a[1..], b, c);
    } else {
      assert a + b == b;
    }
  }

  /** A one-line fragment gives back exactly the escaped text, and a key
      option never renders as a one-line fragment. */
  lemma OptionTextOfRender(item: Choice, escape: string -> string)
    ensures OptionText(RenderClient(item, escape)) ==
            if item.kind.KeyChoice? then None else Some(escape(item.text))
  {
    var html := RenderClient(item, escape);
    if item.kind.KeyChoice? {
      assert html[18] == ClientOpen[18] == ' ';
      assert OptionOpen[18] == '"';
      if |OptionOpen| <= |html| {
        assert html[..|OptionOpen|][18] != OptionOpen[18];
      }
    } else {
      var t := escape(item.text);
      assert html == OptionOpen + t + DivClose;
      assert html[..|OptionOpen|] == OptionOpen;
      assert html[|html| - |DivClose|..] == DivClose;
      assert html[|OptionOpen|..|html| - |DivClose|] == t;
    }
  }

  /** Reading back the two-line layout built from fields without '<'. */
  lemma ClientFieldsOfLayout(n: string, product: string, key: string)
    requires '<' !in n && '<' !in product && '<' !in key
    ensures ClientFields((ClientOpen + NameOpen) + (n + ((DivClose + ExtraOpen) + ((product + Separator + key) + (SmallClose + DivClose)))))
            == Some((n, product + Separator + key))
  {
    var head := ClientOpen + NameOpen;
    var middle := DivClose + ExtraOpen;
    var extra := product + Separator + key;
    var tail := SmallClose + DivClose;
    var rest := middle + (extra + tail);
    var html := head + (n + rest);
    assert html[..|head|] == head;
    var body := html[|head|..];
    assert body == n + rest;
    assert rest[0] == '<';
    UpToConcat(n, rest, '<');
    assert body[|n|..] == rest;
    assert rest[..|middle|] == middle;
    assert rest[|middle|..] == extra + tail;
    assert '<' !in Separator;
    assert '<' !in extra;
    assert tail[0] == '<';
    UpToConcat(extra, tail, '<');
    assert (extra + tail)[|extra|..] == tail;
  }

  lemma LayoutRegrouped(n: string, product: string, key: string)
    ensures ClientOpen + NameOpen + n + DivClose + ExtraOpen + product + Separator + key + SmallClose + DivClose
            == (ClientOpen + NameOpen) + (n + ((DivClose + ExtraOpen) + ((product + Separator + key) + (SmallClose + DivClose))))
  {
  }

  /** When `escape` never emits '<' (as HTML escaping guarantees), the two
      elements of a key option hold exactly the escaped client name and the
      escaped product and key: no field can close its element early or add
      markup. */
  lemma ClientFieldsOfRender(item: Choice, escape: string -> string)
    requires item.kind.KeyChoice?
    requires forall s :: '<' !in escape(s)
    ensures ClientFields(RenderClient(item, escape)) ==
            Some((escape(item.kind.name), escape(item.kind.product) + Separator + escape(item.text)))
  {
    var n, product, key := escape(item.kind.name), escape(item.kind.product), escape(item.text);
    ClientFieldsOfLayout(n, product, key);
    LayoutRegrouped(n, product, key);
  }
}
