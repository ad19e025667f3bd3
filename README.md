# XML fixture generator for the identity-model tests

The test suite of the identity-model libraries builds its XML inputs with a small
generator, `XmlGenerator`, and a tiny tree type, `XmlEement`. This project models that
generator in Dafny:

- `Elements` covers the `XmlEement` tree. A node's value is a string, one child, a
  list of children, or something else. `Generate` writes `<Name>`, then the value, then
  `</Name>`, and throws for any other kind of value. The model has a recursive
  specification `Serialized`, and `Generate` is the builder loop proved against it.
  `ElementReading` scans that output back into open, text and close events. It proves
  that the scan of `Generate`'s output is exactly the tree's event sequence, as long as
  names contain no `>` and do not start with `/`, and texts contain no `<`.
- `StringFormat` covers `string.Format` over the fixed templates. Each template is cut
  at its `{i}` holes. `Format` fills it left to right, and `Render` is an independent
  reference reading. `string.Concat` over a list is `Concat`.
- `XmlSignature` covers the XML-Signature fragments: `KeyDescriptor`, `KeyInfo` with
  its `X509Data` children, `Reference`, `SignedInfo` and `Signature`. The namespace and
  element names are those of the W3C recommendation "XML Signature Syntax and
  Processing" (section 4.4.4, `X509Data`).
- `Saml` covers the SAML 1.0 assertion fragments. Each is one `string.Format` over a
  fixed template. All but the `Action` and `AttributeValue` templates fix `xmlns` to
  `urn:oasis:names:tc:SAML:1.0:assertion`; those two take the namespace as an
  argument. It also covers the `NotBefore` and `NotOnOrAfter` attribute helpers of
  `Conditions`.

A null string argument is modelled as the empty string: `string.Format` and
interpolation render null as empty, and `string.IsNullOrEmpty` treats the two alike. A
nullable list of strings is an `Option<seq<string>>`. An emitter that throws returns a
`Result`, with the exception kind as the error, rather than assuming its input away.

## Model

| member | source | states |
|---|---|---|
| Elements.Serialized | test/Microsoft.IdentityModel.Tests/XmlGenerator.cs:48-63 | serialisation succeeds exactly when every value in the tree is a string, an element or a list of elements |
| Elements.SerializedAll | test/Microsoft.IdentityModel.Tests/XmlGenerator.cs:55-57 | a list of children serialises exactly when every child does |
| Elements.Generate | test/Microsoft.IdentityModel.Tests/XmlGenerator.cs:48-63 | the builder loop returns the specified serialisation, and it throws exactly when the specification fails |
| Elements.SerializedAllIsConcat | test/Microsoft.IdentityModel.Tests/XmlGenerator.cs:55-57 | a list of children writes each child's text in order, with nothing between them |
| Elements.SerializedList | test/Microsoft.IdentityModel.Tests/XmlGenerator.cs:50-61 | a list element is its open tag, its children's texts in order, and its close tag; an empty list gives `<n></n>` |
| ElementReading.ScanGenerated | test/Microsoft.IdentityModel.Tests/XmlGenerator.cs:48-63 | scanning the output of a serialisable tree with plain names and texts gives back exactly the tree's open, text and close events |
| StringFormat.FormatIsRender | test/Microsoft.IdentityModel.Tests/XmlGenerator.cs:105 | filling a template left to right equals the piece-by-piece reading of it |
| StringFormat.ConcatAppend | test/Microsoft.IdentityModel.Tests/XmlGenerator.cs:158 | concatenating two lists concatenates their joins |
| XmlSignature.TemplateArities | test/Microsoft.IdentityModel.Tests/XmlGenerator.cs:83-389 | each XML-Signature template has exactly as many holes as its emitter passes arguments |
| XmlSignature.KeyDescriptorXml | test/Microsoft.IdentityModel.Tests/XmlGenerator.cs:93-96 | the namespace goes in the `use` attribute, and the key info is the content |
| XmlSignature.KeyDescriptorXmlOf | test/Microsoft.IdentityModel.Tests/XmlGenerator.cs:88-91 | the signature namespace goes in `use` and the generated `KeyInfo` is the content |
| XmlSignature.KeyInfoXml | test/Microsoft.IdentityModel.Tests/XmlGenerator.cs:103-106 | succeeds exactly when the given `X509Data` tree serialises, and wraps that serialisation in `KeyInfo` with the namespace |
| XmlSignature.KeyInfoText | test/Microsoft.IdentityModel.Tests/XmlGenerator.cs:321-342 | the key info text is what `KeyInfoXml` gives for the signature namespace and the `X509Data` of the kept fields, which never throws |
| XmlSignature.GenerateKeyInfo | test/Microsoft.IdentityModel.Tests/XmlGenerator.cs:321-343 | the five conditional appends build exactly the specified `X509Data` children, and the result is the specified key info text |
| XmlSignature.X509ChildrenText | test/Microsoft.IdentityModel.Tests/XmlGenerator.cs:323-338 | the kept children all serialise, and together they write the certificate, issuer name, serial number, SKI and subject name texts in that order, each only when present |
| XmlSignature.X509DataShape | test/Microsoft.IdentityModel.Tests/XmlGenerator.cs:342 | `X509Data` is those five field texts, in order, between its tags |
| XmlSignature.KeyInfoTextShape | test/Microsoft.IdentityModel.Tests/XmlGenerator.cs:321-342 | the whole output: `KeyInfo` in the signature namespace around `X509Data` around the present fields in source order |
| XmlSignature.X509ChildrenExact | test/Microsoft.IdentityModel.Tests/XmlGenerator.cs:325-338 | a field's element is among the children if and only if the field is non-empty; every child is a non-empty string element; the count equals the number of present fields |
| XmlSignature.ReferenceXml | test/Microsoft.IdentityModel.Tests/XmlGenerator.cs:355-363 | URI, then two transforms, then the digest method and value, in that order |
| XmlSignature.ReferenceXmlOf | test/Microsoft.IdentityModel.Tests/XmlGenerator.cs:365-369 | succeeds if and only if the chain has at least two transforms; it then equals the five-argument form on the first two |
| XmlSignature.ReferenceIgnoresLaterTransforms | test/Microsoft.IdentityModel.Tests/XmlGenerator.cs:365-369 | references that agree on everything up to the second transform produce the same output |
| XmlSignature.SignedInfoXml | test/Microsoft.IdentityModel.Tests/XmlGenerator.cs:386-394 | namespace, canonicalization method, signature method, then the reference, in that order |
| XmlSignature.GenerateSignedInfo | test/Microsoft.IdentityModel.Tests/XmlGenerator.cs:350-353 | throws exactly when the reference has fewer than two transforms, and otherwise is `SignedInfoXml` in the signature namespace |
| XmlSignature.GenerateSignature | test/Microsoft.IdentityModel.Tests/XmlGenerator.cs:345-348 | throws exactly when the signed info throws, that is, when the reference has fewer than two transforms |
| XmlSignature.GenerateSignatureShape | test/Microsoft.IdentityModel.Tests/XmlGenerator.cs:345-348 | when it does not throw: the signed info, then the signature value, then the key info, inside `Signature` in the signature namespace |
| XmlSignature.SignatureXml | test/Microsoft.IdentityModel.Tests/XmlGenerator.cs:381-384 | as written, this is `SignedInfoXml` of the same four arguments |
| XmlSignature.SignatureXmlIsNotASignature | test/Microsoft.IdentityModel.Tests/XmlGenerator.cs:381-384 | for every input, the as-written output starts with `<SignedInfo` and differs from the intended `Signature` element |
| XmlSignature.SignatureXmlIntended | test/Microsoft.IdentityModel.Tests/XmlGenerator.cs:376-379 | a `Signature` element: signed info, then the signature value, then the key info |
| XmlSignature.SignatureXmlIntendedMatchesGenerate | test/Microsoft.IdentityModel.Tests/XmlGenerator.cs:345-348 | the corrected helper produces exactly what `Generate(Signature)` produces |
| Saml.AttributesTemplateArities | test/Microsoft.IdentityModel.Tests/XmlGenerator.cs:125-189 | the action, attribute value, attribute, attribute statement, audience and audience restriction templates have exactly as many holes as their emitters pass arguments |
| Saml.StatementsTemplateArities | test/Microsoft.IdentityModel.Tests/XmlGenerator.cs:191-229 | the same for the subject locality, authority binding, authentication statement and conditions templates |
| Saml.SubjectsTemplateArities | test/Microsoft.IdentityModel.Tests/XmlGenerator.cs:231-319 | the same for the name identifier, confirmation method, subject confirmation and subject templates |
| Saml.AssertionsTemplateArities | test/Microsoft.IdentityModel.Tests/XmlGenerator.cs:251-298 | the same for the advice, assertion, assertion reference, authorization decision and evidence templates |
| Saml.NotBeforeXml | test/Microsoft.IdentityModel.Tests/XmlGenerator.cs:108-114 | empty output if and only if there is no bound; otherwise `NotBefore = "v"` |
| Saml.NotOnOrAfterXml | test/Microsoft.IdentityModel.Tests/XmlGenerator.cs:116-122 | empty output if and only if there is no bound; otherwise `NotOnOrAfter = "v"` |
| Saml.BoundRoundTrip | test/Microsoft.IdentityModel.Tests/XmlGenerator.cs:108-122 | reading back an empty attribute gives no bound; reading back `name = "v"` gives `v` |
| Saml.NotBeforeRoundTrip | test/Microsoft.IdentityModel.Tests/XmlGenerator.cs:108-114 | the `NotBefore` attribute text reads back to exactly the bound it was written from, or to none |
| Saml.NotOnOrAfterRoundTrip | test/Microsoft.IdentityModel.Tests/XmlGenerator.cs:116-122 | the `NotOnOrAfter` attribute text reads back to exactly the bound it was written from, or to none |
| Saml.ConcatOrEmptyAppend | test/Microsoft.IdentityModel.Tests/XmlGenerator.cs:158 | a list of fragments renders as its parts in order; an empty list renders like a null one |
| Saml.SamlActionXml | test/Microsoft.IdentityModel.Tests/XmlGenerator.cs:125-133 | the action namespace goes in `Namespace` and the namespace in `xmlns`, the reverse of the parameter order; the action is the content |
| Saml.SamlAttributeValueXml | test/Microsoft.IdentityModel.Tests/XmlGenerator.cs:135-143 | namespace, then the value |
| Saml.SamlAttributeXml | test/Microsoft.IdentityModel.Tests/XmlGenerator.cs:145-159 | name, then namespace, then the values joined in order; a null list gives empty content |
| Saml.SamlAttributeStatementXml | test/Microsoft.IdentityModel.Tests/XmlGenerator.cs:161-169 | the subject, one space, then the attributes |
| Saml.SamlAudienceXml | test/Microsoft.IdentityModel.Tests/XmlGenerator.cs:171-179 | the audience is the content |
| Saml.SamlAudienceRestrictionConditionXml | test/Microsoft.IdentityModel.Tests/XmlGenerator.cs:181-189 | throws if and only if the list is null; otherwise the audiences joined in order |
| Saml.SamlSubjectLocalityXml | test/Microsoft.IdentityModel.Tests/XmlGenerator.cs:191-199 | the IP address, then the DNS address, in an empty element |
| Saml.SamlAuthorityBindingXml | test/Microsoft.IdentityModel.Tests/XmlGenerator.cs:201-209 | kind, then location, then binding, in an empty element |
| Saml.SamlAuthenticationStatementXml | test/Microsoft.IdentityModel.Tests/XmlGenerator.cs:211-219 | method and instant as attributes; subject, locality and binding as content, in that order |
| Saml.SamlConditionsXml | test/Microsoft.IdentityModel.Tests/XmlGenerator.cs:221-229 | both bound attributes, each possibly empty, then the conditions joined in order; a null list gives empty content |
| Saml.SamlNameIdentifierXml | test/Microsoft.IdentityModel.Tests/XmlGenerator.cs:231-239 | qualifier and format as attributes, and the name as content |
| Saml.SamlConfirmationMethodXml | test/Microsoft.IdentityModel.Tests/XmlGenerator.cs:241-249 | the method is the content |
| Saml.SamlAdviceXml | test/Microsoft.IdentityModel.Tests/XmlGenerator.cs:251-259 | the assertion reference, then the assertion |
| Saml.SamlAssertionXml | test/Microsoft.IdentityModel.Tests/XmlGenerator.cs:261-269 | five header attributes in order; then conditions, advice, statements and signature, in order |
| Saml.SamlAssertionIDRefXml | test/Microsoft.IdentityModel.Tests/XmlGenerator.cs:271-279 | the identifier is the content |
| Saml.SamlAuthorizationDecisionStatementXml | test/Microsoft.IdentityModel.Tests/XmlGenerator.cs:280-288 | resource and decision as attributes; subject, action and evidence as content, in that order |
| Saml.SamlEvidenceXml | test/Microsoft.IdentityModel.Tests/XmlGenerator.cs:290-298 | the assertion reference, then the assertion |
| Saml.SamlSubjectConfirmationXml | test/Microsoft.IdentityModel.Tests/XmlGenerator.cs:300-309 | the methods joined in order (a null list gives nothing), then the data inside literal quotes |
| Saml.SamlSubjectXml | test/Microsoft.IdentityModel.Tests/XmlGenerator.cs:311-319 | the name identifier, one space, then the confirmation |

## Left out

- Null object arguments: a null `KeyInfo`, `SignedInfo`, `Reference`, transform or child element throws NullReferenceException. Datatype values cannot be null, so the model has no such case.
- `Elements.Generate`: a value of another type and a null value share one error kind, `UnsupportedValue`. In the source they differ. A non-null value of another type gets the test exception of lines 58-59. For a null value, building that exception's message calls `GetType()` on null at line 59, so the source throws NullReferenceException instead. The message text is not modelled either.
- `Elements.Generate`: trees in the model are finite and acyclic, because a datatype value is finite and cannot contain itself. Shared children do not change the output. In C#, though, a list can contain the element that holds it. Generating such a cycle recurses through lines 56-57 without end and ends in StackOverflowException, and the model has no such input.
- `StringFormat.Arg`: an index past the arguments makes `string.Format` throw FormatException. The model renders it as empty. The `TemplateArities` lemmas of `XmlSignature` and `Saml` prove how many holes each template has. That each emitter passes exactly that many arguments is plain from its argument list, not proved, so the case is never reached.
- Format strings are modelled only as far as these templates use them: no brace escapes, no alignment, no format specifiers.
- The large literal constants are constants, not operations, so they are not modelled: `ClaimTypesOffered`, `IDPSSODescriptorTemplate`, `EntityDescriptorTemplate`, `RoleDescriptorTemplate`, `SingleLogoutServiceTemplate` and `SingleSignOnServiceTemplate`.
- The unused local at line 340 of `Generate(KeyInfo)` is not modelled; it is the same value that line 342 returns.
- `XmlSignatureConstants` is not part of this model; its namespace and element names are taken from the W3C recommendation cited above.
- The class definitions of `KeyInfo`, `Signature`, `SignedInfo`, `Reference` and `Transform` are not part of this model. Only the fields the generator reads are modelled.
- The other test helpers beside the generator are not modelled, and neither are the token libraries they exercise: cryptography, signing and validation.
- `Elements.Generate` models the `StringBuilder` as a `string` that the loop extends. The builder is local to the call, so modelling it as a value loses nothing.

## Findings

| source | as written | input that shows it | evidently intended | confidence | as-written member | corrected member |
|---|---|---|---|---|---|---|
| test/Microsoft.IdentityModel.Tests/XmlGenerator.cs:381-384 | `SignatureXml` formats `SignedInfoTemplate`, so it returns a `SignedInfo` element: the signature value becomes the canonicalization algorithm and the signed info becomes the signature algorithm | any arguments, e.g. all empty: the output starts with `<SignedInfo` | format `SignatureTemplate` with namespace, signed info, signature value and key info, as `Generate(Signature)` does | medium, not executed | XmlSignature.SignatureXml (discrepancy shown by XmlSignature.SignatureXmlIsNotASignature) | XmlSignature.SignatureXmlIntended (agreement with `Generate(Signature)` in XmlSignature.SignatureXmlIntendedMatchesGenerate) |
