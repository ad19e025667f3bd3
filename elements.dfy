/**
 * The `XmlEement` fixture class (the source's own spelling): a named element
 * whose value is a string, one nested element or a list of elements, and
 * `XmlEement.Generate`, which writes it out as nested tags.
 */
module Elements {
  import opened Wrappers
  import StringFormat

  /** What `Generate` accepts as a value. `Other` stands for every other
      runtime value; a null value, which makes the source fail with a
      different exception, is merged into it. */
  datatype Value =
    | Str(text: string)
    | Elem(child: XmlEement)
    | Elems(children: seq<XmlEement>)
    | Other

  datatype XmlEement = XmlEement(Name: string, Value: Value)

  /** `Generate` fails on an `Other` value: the source throws its test
      exception for a non-null value of another type, and a
      NullReferenceException while building that message for a null one. */
  datatype Error = UnsupportedValue

  function OpenTag(name: string): string { "<" + name + ">" }

  function CloseTag(name: string): string { "</" + name + ">" }

  /** Every value in the tree, at any depth, is one `Generate` accepts. */
  predicate Serializable(e: XmlEement)
  {
    match e.Value
    case Str(_) => true
    case Elem(c) => Serializable(c)
    case Elems(cs) => AllSerializable(cs)
    case Other => false
  }

  predicate AllSerializable(cs: seq<XmlEement>)
  {
    forall i | 0 <= i < |cs| :: Serializable(cs[i])
  }

  /** What `Generate(e)` returns or throws. */
  function Serialized(e: XmlEement): (r: Result<string, Error>)
    ensures r.Success? <==> Serializable(e)
  {
    match e.Value
    case Str(s) => Success(OpenTag(e.Name) + s + CloseTag(e.Name))
    case Elem(c) =>
      var inner := Serialized(c);
      if inner.Failure? then inner else Success(OpenTag(e.Name) + inner.value + CloseTag(e.Name))
    case Elems(cs) =>
      var inner := SerializedAll(cs);
      if inner.Failure? then inner else Success(OpenTag(e.Name) + inner.value + CloseTag(e.Name))
    case Other => Failure(UnsupportedValue)
  }

  /** The children of a list value written one after another, stopping at
      the first one that throws. */
  function SerializedAll(cs: seq<XmlEement>): (r: Result<string, Error>)
    ensures r.Success? <==> AllSerializable(cs)
  {
    if cs == [] then Success("")
    else
      var init := SerializedAll(cs[..|cs| - 1]);
      if init.Failure? then init
      else
        var last := Serialized(cs[|cs| - 1]);
        if last.Failure? then last else Success(init.value + last.value)
  }

  /** `XmlEement.Generate`: a string builder that starts with the opening
      tag, appends the value (each child in turn for a list) and ends with
      the closing tag. */
  method Generate(e: XmlEement) returns (r: Result<string, Error>)
    ensures r == Serialized(e)
  {
    var builder := OpenTag(e.Name);
    match e.Value {
      case Str(s) =>
        builder := builder + s;
      case Elem(c) =>
        var inner := Generate(c);
        if inner.Failure? {
          return inner;
        }
        builder := builder + inner.value;
      case Elems(cs) =>
        var i := 0;
        while i < |cs|
          invariant 0 <= i <= |cs|
          invariant SerializedAll(cs[..i]).Success?
          invariant builder == OpenTag(e.Name) + SerializedAll(cs[..i]).value
        {
          var inner := Generate(cs[i]);
          assert cs[..i + 1][..i] == cs[..i];
          if inner.Failure? {
            assert !Serializable(cs[i]);
            assert SerializedAll(cs).Failure?;
            assert Serialized(e) == SerializedAll(cs);
            // A case split over the one-constructor `Error`: both failures
            // carry `UnsupportedValue`, so they are equal.
            match SerializedAll(cs).error { case UnsupportedValue => }
            match inner.error { case UnsupportedValue => }
            return inner;
          }
          builder := builder + inner.value;
          i := i + 1;
        }
        assert cs[..|cs|] == cs;
      case Other =>
        return Failure(UnsupportedValue);
    }
    builder := builder + CloseTag(e.Name);
    r := Success(builder);
  }

  /** The serialisations of a list of elements, in list order. */
  function Texts(cs: seq<XmlEement>): seq<string>
    requires AllSerializable(cs)
  {
    seq(|cs|, i requires 0 <= i < |cs| => Serialized(cs[i]).value)
  }

  /** A list value is written as the children's serialisations joined in
      list order between the tags; an empty list gives `<N></N>`. */
  lemma {:induction false} SerializedAllIsConcat(cs: seq<XmlEement>)
    requires AllSerializable(cs)
    ensures SerializedAll(cs) == Success(StringFormat.Concat(Texts(cs)))
  {
    if cs != [] {
      var init := cs[..|cs| - 1];
      SerializedAllIsConcat(init);
      assert Texts(cs) == Texts(init) + [Serialized(cs[|cs| - 1]).value];
      StringFormat.ConcatAppend(Texts(init), [Serialized(cs[|cs| - 1]).value]);
      StringFormat.ConcatSingle(Serialized(cs[|cs| - 1]).value);
    }
  }

  lemma SerializedList(name: string, cs: seq<XmlEement>)
    requires AllSerializable(cs)
    ensures Serialized(XmlEement(name, Elems(cs)))
         == Success(OpenTag(name) + StringFormat.Concat(Texts(cs)) + CloseTag(name))
    ensures cs == [] ==> Serialized(XmlEement(name, Elems(cs))) == Success("<" + name + "></" + name + ">")
  {
    SerializedAllIsConcat(cs);
    if cs == [] {
      assert StringFormat.Concat(Texts(cs)) == "";
      assert OpenTag(name) + "" + CloseTag(name) == "<" + name + "></" + name + ">";
    }
  }
}
