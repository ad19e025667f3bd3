/**
 * Reading back what `XmlEement.Generate` writes. A small tag scanner splits
 * a string into open tags, close tags and the text between them; for trees
 * whose names and text hold no markup characters, scanning a serialisation
 * gives back exactly the depth-first walk of the tree. This is the sense in
 * which the output is the tree written as nested XML elements.
 */
module ElementReading {
  import opened Wrappers
  import opened Elements
  import opened StringFormat

  datatype Token =
    | Open(name: string)
    | Content(text: string)
    | Close(name: string)
    | Unterminated(rest: string)

  /** Index of the first `c` in `s`, or `|s|` when there is none. */
  function IndexOf(s: string, c: char): (k: nat)
    ensures k <= |s|
    ensures k < |s| ==> s[k] == c
    ensures forall i | 0 <= i < k :: s[i] != c
  {
    if s == [] then 0 else if s[0] == c then 0 else 1 + IndexOf(s[1..], c)
  }

  /** Splits `s` into tags and the text runs between them. */
  function Scan(s: string): seq<Token>
    decreases |s|
  {
    if s == [] then []
    else if s[0] == '<' then
      var j := IndexOf(s, '>');
      if j == |s| then [Unterminated(s)]
      else
        var body := s[1..j];
        (if |body| > 0 && body[0] == '/' then [Close(body[1..])] else [Open(body)]) + Scan(s[j + 1..])
    else
      var k := IndexOf(s, '<');
      [Content(s[..k])] + Scan(s[k..])
  }

  /** Open tag, the value's events, close tag; empty text yields nothing. */
  function Events(e: XmlEement): seq<Token>
  {
    [Open(e.Name)]
    + (match e.Value
       case Str(s) => if s == "" then [] else [Content(s)]
       case Elem(c) => Events(c)
       case Elems(cs) => EventsAll(cs)
       case Other => [])
    + [Close(e.Name)]
  }

  function EventsAll(cs: seq<XmlEement>): seq<Token>
  {
    if cs == [] then [] else EventsAll(cs[..|cs| - 1]) + Events(cs[|cs| - 1])
  }

  /** A name that cannot end a tag early or be taken for a closing tag. */
  predicate PlainName(n: string)
  {
    (forall i | 0 <= i < |n| :: n[i] != '>') && (n == [] || n[0] != '/')
  }

  /** Text that cannot be taken for the start of a tag. */
  predicate PlainText(s: string)
  {
    forall i | 0 <= i < |s| :: s[i] != '<'
  }

  /** Every name and every string value in the tree is plain. */
  predicate Plain(e: XmlEement)
  {
    PlainName(e.Name)
    && match e.Value
       case Str(s) => PlainText(s)
       case Elem(c) => Plain(c)
       case Elems(cs) => AllPlain(cs)
       case Other => true
  }

  predicate AllPlain(cs: seq<XmlEement>)
  {
    forall i | 0 <= i < |cs| :: Plain(cs[i])
  }

  lemma {:induction false} IndexOfAt(p: string, c: char, rest: string)
    requires forall i | 0 <= i < |p| :: p[i] != c
    requires rest != [] && rest[0] == c
    ensures IndexOf(p + rest, c) == |p|
  {
    if p != [] {
      assert (p + rest)[1..] == p[1..] + rest;
      IndexOfAt(p[1..], c, rest);
    }
  }

  lemma ScanOpen(n: string, rest: string)
    requires PlainName(n)
    ensures Scan(OpenTag(n) + rest) == [Open(n)] + Scan(rest)
  {
    var s := OpenTag(n) + rest;
    assert s == "<" + n + (">" + rest);
    IndexOfAt("<" + n, '>', ">" + rest);
    assert s[1..|n| + 1] == n;
    assert s[|n| + 2..] == rest;
  }

  lemma ScanClose(n: string, rest: string)
    requires forall i | 0 <= i < |n| :: n[i] != '>'
    ensures Scan(CloseTag(n) + rest) == [Close(n)] + Scan(rest)
  {
    var s := CloseTag(n) + rest;
    assert s == "</" + n + (">" + rest);
    IndexOfAt("</" + n, '>', ">" + rest);
    assert s[1..|n| + 2] == "/" + n;
    assert s[|n| + 3..] == rest;
  }

  lemma ScanContent(t: string, rest: string)
    requires t != [] && PlainText(t)
    requires rest != [] && rest[0] == '<'
    ensures Scan(t + rest) == [Content(t)] + Scan(rest)
  {
    var s := t + rest;
    IndexOfAt(t, '<', rest);
    assert s[..|t|] == t;
    assert s[|t|..] == rest;
  }

  /** An element's tags around content that scans to `events`. */
  lemma ScanWrapped(n: string, inner: string, events: seq<Token>, rest: string)
    requires PlainName(n)
    requires Scan(inner + (CloseTag(n) + rest)) == events + Scan(CloseTag(n) + rest)
    ensures Scan(OpenTag(n) + inner + CloseTag(n) + rest) == [Open(n)] + events + [Close(n)] + Scan(rest)
  {
    Regroup(OpenTag(n), inner, CloseTag(n), rest);
    ScanOpen(n, inner + (CloseTag(n) + rest));
    ScanClose(n, rest);
    Regroup([Open(n)], events, [Close(n)], Scan(rest));
  }

  /** Scanning a serialisation followed by anything reads the element's
      events first. */
  lemma {:induction false} ScanSerialized(e: XmlEement, rest: string)
    requires Serializable(e) && Plain(e)
    ensures Scan(Serialized(e).value + rest) == Events(e) + Scan(rest)
    decreases e, 1
  {
    var close := CloseTag(e.Name);
    match e.Value {
      case Str(s) =>
        if s != "" {
          ScanClose(e.Name, rest);
          ScanContent(s, close + rest);
        } else {
          assert s + (close + rest) == close + rest;
        }
        ScanWrapped(e.Name, s, if s == "" then [] else [Content(s)], rest);
      case Elem(c) =>
        ScanSerialized(c, close + rest);
        ScanWrapped(e.Name, Serialized(c).value, Events(c), rest);
      case Elems(cs) =>
        ScanSerializedAll(cs, close + rest);
        ScanWrapped(e.Name, SerializedAll(cs).value, EventsAll(cs), rest);
    }
  }

  lemma {:induction false} ScanSerializedAll(cs: seq<XmlEement>, rest: string)
    requires AllSerializable(cs) && AllPlain(cs)
    ensures Scan(SerializedAll(cs).value + rest) == EventsAll(cs) + Scan(rest)
    decreases cs, 0
  {
    if cs == [] {
      assert SerializedAll(cs).value + rest == rest;
    } else {
      var init, last := cs[..|cs| - 1], cs[|cs| - 1];
      assert AllSerializable(init) && AllPlain(init);
      assert Serializable(last) && Plain(last);
      var a, b := SerializedAll(init).value, Serialized(last).value;
      assert SerializedAll(cs).value + rest == a + (b + rest);
      ScanSerializedAll(init, b + rest);
      ScanSerialized(last, rest);
      assert EventsAll(cs) + Scan(rest) == EventsAll(init) + (Events(last) + Scan(rest));
    }
  }

  /** For a tree `Generate` accepts and whose names and text are plain, the
      output scans back to the tree's open/text/close walk. */
  lemma ScanGenerated(e: XmlEement)
    requires Serializable(e) && Plain(e)
    ensures Scan(Serialized(e).value) == Events(e)
  {
    ScanSerialized(e, "");
    assert Serialized(e).value + "" == Serialized(e).value;
  }
}
