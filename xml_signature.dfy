/**
 * The XML-DSig fragments of the fixture generator: `KeyInfo`,
 * `KeyDescriptor`, `Reference`, `SignedInfo` and `Signature`.
 */
module XmlSignature {
  import opened Wrappers
  import opened StringFormat
  import opened Elements

  // XmlSignatureConstants: the namespace and element names of the W3C
  // "XML Signature Syntax and Processing" recommendation (section 4.4.4,
  // The X509Data Element).
  const Namespace := "http://www.w3.org/2000/09/xmldsig#"
  const X509Data := "X509Data"
  const X509Certificate := "X509Certificate"
  const X509IssuerName := "X509IssuerName"
  const X509SerialNumber := "X509SerialNumber"
  const X509SKI := "X509SKI"
  const X509SubjectName := "X509SubjectName"

  /** The certificate fields of a `KeyInfo`; a null field is modelled as "". */
  datatype KeyInfo = KeyInfo(
    CertificateData: string,
    IssuerName: string,
    SerialNumber: string,
    SKI: string,
    SubjectName: string)

  datatype Transform = Transform(Algorithm: string)

  datatype Reference = Reference(
    Uri: string,
    TransformChain: seq<Transform>,
    DigestAlgorithm: string,
    DigestText: string)

  datatype SignedInfo = SignedInfo(
    CanonicalizationMethod: string,
    SignatureAlgorithm: string,
    Reference: Reference)

  datatype Signature = Signature(
    SignedInfo: SignedInfo,
    SignatureValue: string,
    KeyInfo: KeyInfo)

  /** The exception indexing `TransformChain` past its end throws. */
  datatype RangeError = ArgumentOutOfRange

  const KeyDescriptorTemplate :=
    Text("<KeyDescriptor use=\"", Hole(0, Text("\">", Hole(1, Text("</KeyDescriptor>", Done)))))

  const KeyInfoTemplate :=
    Text("<KeyInfo xmlns=\"", Hole(0, Text("\">", Hole(1, Text("</KeyInfo>", Done)))))

  const ReferenceTemplate :=
    Text("<Reference URI=\"", Hole(0,
    Text("\"><Transforms><Transform Algorithm=\"", Hole(1,
    Text("\" /><Transform Algorithm=\"", Hole(2,
    Text("\" /></Transforms><DigestMethod Algorithm=\"", Hole(3,
    Text("\" /><DigestValue>", Hole(4,
    Text("</DigestValue></Reference>", Done)))))))))))

  const SignatureTemplate :=
    Text("<Signature xmlns=\"", Hole(0,
    Text("\">", Hole(1,
    Text("<SignatureValue>", Hole(2,
    Text("</SignatureValue>", Hole(3,
    Text("</Signature>", Done)))))))))

  const SignedInfoTemplate :=
    Text("<SignedInfo xmlns=\"", Hole(0,
    Text("\"><CanonicalizationMethod Algorithm=\"", Hole(1,
    Text("\" /><SignatureMethod Algorithm=\"", Hole(2,
    Text("\" />", Hole(3,
    Text("</SignedInfo>", Done)))))))))

  /** Every emitter passes exactly as many arguments as its template has
      holes, so `string.Format` never raises FormatException here. */
  lemma TemplateArities()
    ensures Arity(KeyDescriptorTemplate) == 2 && Arity(KeyInfoTemplate) == 2
    ensures Arity(ReferenceTemplate) == 5
    ensures Arity(SignatureTemplate) == 4 && Arity(SignedInfoTemplate) == 4
  {
  }

  // ---------------------------------------------------------------- KeyInfo

  function KeyDescriptorXml(namespace: string, keyInfo: string): (r: string)
    ensures r == "<KeyDescriptor use=\"" + namespace + "\">" + keyInfo + "</KeyDescriptor>"
  {
    FormatSteps([namespace, keyInfo]);
    Format(KeyDescriptorTemplate, [namespace, keyInfo])
  }

  /** `KeyInfoTemplate` around the serialisation of `x509Data`; throws
      whatever `XmlEement.Generate` throws. */
  function KeyInfoXml(namespace: string, x509Data: XmlEement): (r: Result<string, Elements.Error>)
    ensures r.Success? <==> Serializable(x509Data)
    ensures r.Success? ==>
      r.value == "<KeyInfo xmlns=\"" + namespace + "\">" + Serialized(x509Data).value + "</KeyInfo>"
  {
    match Serialized(x509Data)
    case Failure(err) => Failure(err)
    case Success(inner) =>
      FormatSteps([namespace, inner]);
      Success(Format(KeyInfoTemplate, [namespace, inner]))
  }

  /** One child element for a `KeyInfo` field, or none when it is empty. */
  function Keep(name: string, value: string): seq<XmlEement>
  {
    if value == "" then [] else [XmlEement(name, Str(value))]
  }

  /** The children `Generate(KeyInfo)` puts in `X509Data`: the non-empty
      fields, in the order of its five tests. */
  function X509Children(k: KeyInfo): seq<XmlEement>
  {
    Keep(X509Certificate, k.CertificateData)
    + Keep(X509IssuerName, k.IssuerName)
    + Keep(X509SerialNumber, k.SerialNumber)
    + Keep(X509SKI, k.SKI)
    + Keep(X509SubjectName, k.SubjectName)
  }

  function X509DataElement(k: KeyInfo): XmlEement
  {
    XmlEement(X509Data, Elems(X509Children(k)))
  }

  /** The value of `Generate(KeyInfo)`, for use by the other emitters. */
  function KeyInfoText(k: KeyInfo): (r: string)
    ensures KeyInfoXml(Namespace, X509DataElement(k)) == Success(r)
  {
    assert AllSerializable(X509Children(k));
    Format(KeyInfoTemplate, [Namespace, Serialized(X509DataElement(k)).value])
  }

  /** `Generate(KeyInfo)`: collects the non-empty fields into a list, then
      writes `X509Data` with that list inside `KeyInfoTemplate`. */
  method GenerateKeyInfo(k: KeyInfo) returns (r: string)
    ensures r == KeyInfoText(k)
  {
    var elements: seq<XmlEement> := [];
    if k.CertificateData != "" {
      elements := elements + [XmlEement(X509Certificate, Str(k.CertificateData))];
    }
    assert elements == Keep(X509Certificate, k.CertificateData);
    ghost var upTo1 := elements;
    if k.IssuerName != "" {
      elements := elements + [XmlEement(X509IssuerName, Str(k.IssuerName))];
    }
    assert elements == upTo1 + Keep(X509IssuerName, k.IssuerName);
    ghost var upTo2 := elements;
    if k.SerialNumber != "" {
      elements := elements + [XmlEement(X509SerialNumber, Str(k.SerialNumber))];
    }
    assert elements == upTo2 + Keep(X509SerialNumber, k.SerialNumber);
    ghost var upTo3 := elements;
    if k.SKI != "" {
      elements := elements + [XmlEement(X509SKI, Str(k.SKI))];
    }
    assert elements == upTo3 + Keep(X509SKI, k.SKI);
    ghost var upTo4 := elements;
    if k.SubjectName != "" {
      elements := elements + [XmlEement(X509SubjectName, Str(k.SubjectName))];
    }
    assert elements == upTo4 + Keep(X509SubjectName, k.SubjectName);
    assert elements == X509Children(k);
    X509ChildrenText(k);
    var x509Data := Generate(XmlEement(X509Data, Elems(elements)));
    assert Serializable(X509DataElement(k));
    r := Format(KeyInfoTemplate, [Namespace, x509Data.value]);
  }

  /** `KeyDescriptorXml(KeyInfo)`: the signature namespace goes into the
      `use` attribute, as the source has it. */
  function KeyDescriptorXmlOf(k: KeyInfo): (r: string)
    ensures r == KeyDescriptorXml(Namespace, KeyInfoText(k))
    ensures r == "<KeyDescriptor use=\"" + Namespace + "\">" + KeyInfoText(k) + "</KeyDescriptor>"
  {
    FormatSteps([Namespace, KeyInfoText(k)]);
    Format(KeyDescriptorTemplate, [Namespace, KeyInfoText(k)])
  }

  /** The text `Generate(KeyInfo)` writes for one field: its element, or
      nothing when the field is empty. */
  function FieldXml(name: string, value: string): string
  {
    if value == "" then "" else OpenTag(name) + value + CloseTag(name)
  }

  lemma KeepText(name: string, value: string)
    ensures AllSerializable(Keep(name, value))
    ensures StringFormat.Concat(Texts(Keep(name, value))) == FieldXml(name, value)
  {
    if value != "" {
      StringFormat.ConcatSingle(OpenTag(name) + value + CloseTag(name));
    }
  }

  lemma {:induction false} TextsAppend(a: seq<XmlEement>, b: seq<XmlEement>)
    requires AllSerializable(a) && AllSerializable(b)
    ensures AllSerializable(a + b)
    ensures StringFormat.Concat(Texts(a + b)) == StringFormat.Concat(Texts(a)) + StringFormat.Concat(Texts(b))
  {
    assert Texts(a + b) == Texts(a) + Texts(b);
    StringFormat.ConcatAppend(Texts(a), Texts(b));
  }

  /** The children of `X509Data` write the five field texts in order. */
  lemma X509ChildrenText(k: KeyInfo)
    ensures AllSerializable(X509Children(k))
    ensures StringFormat.Concat(Texts(X509Children(k)))
         == FieldXml(X509Certificate, k.CertificateData)
            + FieldXml(X509IssuerName, k.IssuerName)
            + FieldXml(X509SerialNumber, k.SerialNumber)
            + FieldXml(X509SKI, k.SKI)
            + FieldXml(X509SubjectName, k.SubjectName)
  {
    var k1, k2, k3, k4, k5 :=
      Keep(X509Certificate, k.CertificateData), Keep(X509IssuerName, k.IssuerName),
      Keep(X509SerialNumber, k.SerialNumber), Keep(X509SKI, k.SKI), Keep(X509SubjectName, k.SubjectName);
    KeepText(X509Certificate, k.CertificateData);
    KeepText(X509IssuerName, k.IssuerName);
    KeepText(X509SerialNumber, k.SerialNumber);
    KeepText(X509SKI, k.SKI);
    KeepText(X509SubjectName, k.SubjectName);
    TextsAppend(k1, k2);
    TextsAppend(k1 + k2, k3);
    TextsAppend(k1 + k2 + k3, k4);
    TextsAppend(k1 + k2 + k3 + k4, k5);
  }

  /** `X509Data` holds the five field texts in order. */
  lemma X509DataShape(k: KeyInfo)
    ensures Serialized(X509DataElement(k)) == Success("<X509Data>"
      + (FieldXml(X509Certificate, k.CertificateData)
         + FieldXml(X509IssuerName, k.IssuerName)
         + FieldXml(X509SerialNumber, k.SerialNumber)
         + FieldXml(X509SKI, k.SKI)
         + FieldXml(X509SubjectName, k.SubjectName))
      + "</X509Data>")
  {
    var cs := X509Children(k);
    X509ChildrenText(k);
    SerializedList(X509Data, cs);
    var open, close := OpenTag(X509Data), CloseTag(X509Data);
    assert open == "<X509Data>";
    assert close == "</X509Data>";
  }

  /** `Generate(KeyInfo)` never throws and writes, inside `KeyInfo` in the
      signature namespace and `X509Data`, the certificate, issuer name,
      serial number, SKI and subject name elements in that order, each only
      when its field is non-empty. */
  lemma KeyInfoTextShape(k: KeyInfo)
    ensures KeyInfoText(k) == "<KeyInfo xmlns=\"" + Namespace + "\">" + "<X509Data>"
      + (FieldXml(X509Certificate, k.CertificateData)
         + FieldXml(X509IssuerName, k.IssuerName)
         + FieldXml(X509SerialNumber, k.SerialNumber)
         + FieldXml(X509SKI, k.SKI)
         + FieldXml(X509SubjectName, k.SubjectName))
      + "</X509Data>" + "</KeyInfo>"
  {
    X509DataShape(k);
    var fields := FieldXml(X509Certificate, k.CertificateData)
      + FieldXml(X509IssuerName, k.IssuerName)
      + FieldXml(X509SerialNumber, k.SerialNumber)
      + FieldXml(X509SKI, k.SKI)
      + FieldXml(X509SubjectName, k.SubjectName);
    Ungroup("<KeyInfo xmlns=\"" + Namespace + "\">", "<X509Data>", fields, "</X509Data>", "</KeyInfo>");
  }

  function Present(value: string): nat
  {
    if value == "" then 0 else 1
  }

  lemma KeepMembers(name: string, value: string)
    ensures |Keep(name, value)| == Present(value)
    ensures forall c | c in Keep(name, value) :: c == XmlEement(name, Str(value)) && value != ""
    ensures value != "" ==> XmlEement(name, Str(value)) in Keep(name, value)
  {
  }

  /** `X509Data` gets one child per non-empty field and no other. */
  lemma X509ChildrenExact(k: KeyInfo)
    ensures forall c | c in X509Children(k) :: c.Value.Str? && c.Value.text != ""
    ensures XmlEement(X509Certificate, Str(k.CertificateData)) in X509Children(k) <==> k.CertificateData != ""
    ensures XmlEement(X509IssuerName, Str(k.IssuerName)) in X509Children(k) <==> k.IssuerName != ""
    ensures XmlEement(X509SerialNumber, Str(k.SerialNumber)) in X509Children(k) <==> k.SerialNumber != ""
    ensures XmlEement(X509SKI, Str(k.SKI)) in X509Children(k) <==> k.SKI != ""
    ensures XmlEement(X509SubjectName, Str(k.SubjectName)) in X509Children(k) <==> k.SubjectName != ""
    ensures |X509Children(k)| == Present(k.CertificateData) + Present(k.IssuerName)
      + Present(k.SerialNumber) + Present(k.SKI) + Present(k.SubjectName)
  {
    var k1, k2, k3, k4, k5 :=
      Keep(X509Certificate, k.CertificateData), Keep(X509IssuerName, k.IssuerName),
      Keep(X509SerialNumber, k.SerialNumber), Keep(X509SKI, k.SKI), Keep(X509SubjectName, k.SubjectName);
    KeepMembers(X509Certificate, k.CertificateData);
    KeepMembers(X509IssuerName, k.IssuerName);
    KeepMembers(X509SerialNumber, k.SerialNumber);
    KeepMembers(X509SKI, k.SKI);
    KeepMembers(X509SubjectName, k.SubjectName);
    forall c | c in X509Children(k)
      ensures c.Value.Str? && c.Value.text != ""
    {
      InFive(c, k1, k2, k3, k4, k5);
    }
    InFive(XmlEement(X509Certificate, Str(k.CertificateData)), k1, k2, k3, k4, k5);
    InFive(XmlEement(X509IssuerName, Str(k.IssuerName)), k1, k2, k3, k4, k5);
    InFive(XmlEement(X509SerialNumber, Str(k.SerialNumber)), k1, k2, k3, k4, k5);
    InFive(XmlEement(X509SKI, Str(k.SKI)), k1, k2, k3, k4, k5);
    InFive(XmlEement(X509SubjectName, Str(k.SubjectName)), k1, k2, k3, k4, k5);
  }

  lemma InFive<T>(x: T, a: seq<T>, b: seq<T>, c: seq<T>, d: seq<T>, e: seq<T>)
    ensures x in a + b + c + d + e <==> x in a || x in b || x in c || x in d || x in e
    ensures |a + b + c + d + e| == |a| + |b| + |c| + |d| + |e|
  {
  }

  // -------------------------------------------------- Reference, SignedInfo

  function ReferenceXml(referenceUri: string, envelopingAlgorithm: string, c14nAlgorithm: string,
                        digestAlgorithm: string, digestValue: string): (r: string)
    ensures r == "<Reference URI=\"" + referenceUri
      + "\"><Transforms><Transform Algorithm=\"" + envelopingAlgorithm
      + "\" /><Transform Algorithm=\"" + c14nAlgorithm
      + "\" /></Transforms><DigestMethod Algorithm=\"" + digestAlgorithm
      + "\" /><DigestValue>" + digestValue + "</DigestValue></Reference>"
  {
    var args := [referenceUri, envelopingAlgorithm, c14nAlgorithm, digestAlgorithm, digestValue];
    FormatSteps(args);
    Format(ReferenceTemplate, args)
  }

  /** `ReferenceXml(Reference)`: always reads the first two transforms, and
      throws when the chain is shorter. */
  function ReferenceXmlOf(reference: Reference): (r: Result<string, RangeError>)
    ensures r.Success? <==> |reference.TransformChain| >= 2
    ensures r.Success? ==> r.value == ReferenceXml(reference.Uri,
      reference.TransformChain[0].Algorithm, reference.TransformChain[1].Algorithm,
      reference.DigestAlgorithm, reference.DigestText)
  {
    var chain := reference.TransformChain;
    if |chain| < 2 then Failure(ArgumentOutOfRange)
    else
      var args := [reference.Uri, chain[0].Algorithm, chain[1].Algorithm,
                   reference.DigestAlgorithm, reference.DigestText];
      FormatSteps(args);
      Success(Format(ReferenceTemplate, args))
  }

  /** Transforms after the second one never reach the output. */
  lemma ReferenceIgnoresLaterTransforms(a: Reference, b: Reference)
    requires a.Uri == b.Uri && a.DigestAlgorithm == b.DigestAlgorithm && a.DigestText == b.DigestText
    requires |a.TransformChain| >= 2 && |b.TransformChain| >= 2
    requires a.TransformChain[..2] == b.TransformChain[..2]
    ensures ReferenceXmlOf(a) == ReferenceXmlOf(b)
  {
    assert a.TransformChain[0] == a.TransformChain[..2][0];
    assert a.TransformChain[1] == a.TransformChain[..2][1];
    assert b.TransformChain[0] == b.TransformChain[..2][0];
    assert b.TransformChain[1] == b.TransformChain[..2][1];
  }

  function SignedInfoXml(namespace: string, c14nAlgorithm: string, signatureAlgorithm: string,
                         reference: string): (r: string)
    ensures r == "<SignedInfo xmlns=\"" + namespace
      + "\"><CanonicalizationMethod Algorithm=\"" + c14nAlgorithm
      + "\" /><SignatureMethod Algorithm=\"" + signatureAlgorithm
      + "\" />" + reference + "</SignedInfo>"
  {
    var args := [namespace, c14nAlgorithm, signatureAlgorithm, reference];
    FormatSteps(args);
    Format(SignedInfoTemplate, args)
  }

  /** `Generate(SignedInfo)`: canonicalization method, then signature
      method, then the reference, in the signature namespace. */
  function GenerateSignedInfo(signedInfo: SignedInfo): (r: Result<string, RangeError>)
    ensures r.Success? <==> |signedInfo.Reference.TransformChain| >= 2
    ensures r.Success? ==> r.value == SignedInfoXml(Namespace, signedInfo.CanonicalizationMethod,
      signedInfo.SignatureAlgorithm, ReferenceXmlOf(signedInfo.Reference).value)
  {
    match ReferenceXmlOf(signedInfo.Reference)
    case Failure(err) => Failure(err)
    case Success(reference) =>
      var args := [Namespace, signedInfo.CanonicalizationMethod, signedInfo.SignatureAlgorithm, reference];
      FormatSteps(args);
      Success(Format(SignedInfoTemplate, args))
  }

  // -------------------------------------------------------------- Signature

  /** `Generate(Signature)`: the signed info, the signature value and the
      key info inside `Signature`; throws only what `Generate(SignedInfo)`
      throws, since `Generate(KeyInfo)` never does. */
  function GenerateSignature(signature: Signature): (r: Result<string, RangeError>)
    ensures r.Success? <==> |signature.SignedInfo.Reference.TransformChain| >= 2
  {
    match GenerateSignedInfo(signature.SignedInfo)
    case Failure(err) => Failure(err)
    case Success(signedInfo) =>
      Success(Format(SignatureTemplate,
        [Namespace, signedInfo, signature.SignatureValue, KeyInfoText(signature.KeyInfo)]))
  }

  /** What `Generate(Signature)` writes when it does not throw. */
  lemma GenerateSignatureShape(signature: Signature)
    requires |signature.SignedInfo.Reference.TransformChain| >= 2
    ensures GenerateSignature(signature).value
      == "<Signature xmlns=\"" + Namespace + "\">" + GenerateSignedInfo(signature.SignedInfo).value
        + "<SignatureValue>" + signature.SignatureValue + "</SignatureValue>"
        + KeyInfoText(signature.KeyInfo) + "</Signature>"
  {
    var signedInfo := GenerateSignedInfo(signature.SignedInfo).value;
    var keyInfo := KeyInfoText(signature.KeyInfo);
    var text := SignatureXmlIntended(Namespace, signature.SignatureValue, signedInfo, keyInfo);
    assert GenerateSignature(signature).value == text;
  }

  /** `SignatureXml` as written: it formats `SignedInfoTemplate`, so the
      signature value lands in the canonicalization method, the signed info
      in the signature method and the key info after them. */
  function SignatureXml(namespace: string, signatureValue: string, signedInfo: string,
                        keyInfo: string): (r: string)
    ensures r == SignedInfoXml(namespace, signatureValue, signedInfo, keyInfo)
  {
    var args := [namespace, signatureValue, signedInfo, keyInfo];
    FormatSteps(args);
    Format(SignedInfoTemplate, args)
  }

  /** `SignatureXml` as evidently intended: `SignatureTemplate`, with the
      signed info before the signature value. */
  function SignatureXmlIntended(namespace: string, signatureValue: string, signedInfo: string,
                                keyInfo: string): (r: string)
    ensures r == "<Signature xmlns=\"" + namespace + "\">" + signedInfo
      + "<SignatureValue>" + signatureValue + "</SignatureValue>" + keyInfo + "</Signature>"
  {
    var args := [namespace, signedInfo, signatureValue, keyInfo];
    FormatSteps(args);
    Format(SignatureTemplate, args)
  }

  /** The intended helper agrees with `Generate(Signature)`. */
  lemma SignatureXmlIntendedMatchesGenerate(signature: Signature)
    requires |signature.SignedInfo.Reference.TransformChain| >= 2
    ensures GenerateSignature(signature) == Success(SignatureXmlIntended(Namespace,
      signature.SignatureValue, GenerateSignedInfo(signature.SignedInfo).value,
      KeyInfoText(signature.KeyInfo)))
  {
  }

  /** The helper as written never produces a `Signature` element, whatever
      its arguments: its output starts with `<SignedInfo`. */
  lemma SignatureXmlIsNotASignature(namespace: string, signatureValue: string, signedInfo: string,
                                    keyInfo: string)
    ensures SignatureXml(namespace, signatureValue, signedInfo, keyInfo)[..11] == "<SignedInfo"
    ensures SignatureXml(namespace, signatureValue, signedInfo, keyInfo)
         != SignatureXmlIntended(namespace, signatureValue, signedInfo, keyInfo)
  {
    var written := SignatureXml(namespace, signatureValue, signedInfo, keyInfo);
    var intended := SignatureXmlIntended(namespace, signatureValue, signedInfo, keyInfo);
    assert written[5] == 'e';
    assert intended[5] == 'a';
  }
}
