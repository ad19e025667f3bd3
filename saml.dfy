/**
 * The SAML 1.0 assertion fragments of the fixture generator: one
 * `string.Format` per element over a fixed template, and the two attribute
 * helpers for the validity bounds of `Conditions`.
 */
module Saml {
  import opened Wrappers
  import opened StringFormat

  /** The exception `string.Concat` throws for a null list. */
  datatype NullError = ArgumentNull

  const SamlActionTemplate :=
    Text("<Action Namespace=\"",
    Hole(0,
    Text("\" xmlns=\"",
    Hole(1,
    Text("\">",
    Hole(2,
    Text("</Action>", Done)))))))

  const SamlAttributeValueTemplate :=
    Text("<AttributeValue xmlns=\"",
    Hole(0,
    Text("\">",
    Hole(1,
    Text("</AttributeValue>", Done)))))

  const SamlAttributeTemplate :=
    Text("<Attribute AttributeName=\"",
    Hole(0,
    Text("\" AttributeNamespace=\"",
    Hole(1,
    Text("\" xmlns=\"urn:oasis:names:tc:SAML:1.0:assertion\">",
    Hole(2,
    Text("</Attribute>", Done)))))))

  const SamlAttributeStatementTemplate :=
    Text("<AttributeStatement xmlns=\"urn:oasis:names:tc:SAML:1.0:assertion\">",
    Hole(0,
    Text(" ",
    Hole(1,
    Text("</AttributeStatement>", Done)))))

  const SamlAudienceTemplate :=
    Text("<Audience xmlns=\"urn:oasis:names:tc:SAML:1.0:assertion\">",
    Hole(0,
    Text("</Audience>", Done)))

  const SamlAudienceRestrictionConditionTemplate :=
    Text("<AudienceRestrictionCondition xmlns=\"urn:oasis:names:tc:SAML:1.0:assertion\">",
    Hole(0,
    Text("</AudienceRestrictionCondition>", Done)))

  const SamlSubjectLocalityTemplate :=
    Text("<SubjectLocality IPAddress=\"",
    Hole(0,
    Text("\" DNSAddress=\"",
    Hole(1,
    Text("\" xmlns=\"urn:oasis:names:tc:SAML:1.0:assertion\"/>", Done)))))

  const SamlAuthorityBindingTemplate :=
    Text("<AuthorityBinding AuthorityKind=\"",
    Hole(0,
    Text("\" Location=\"",
    Hole(1,
    Text("\" Binding=\"",
    Hole(2,
    Text("\" xmlns=\"urn:oasis:names:tc:SAML:1.0:assertion\"/>", Done)))))))

  const SamlAuthenticationStatementTemplate :=
    Text("<AuthenticationStatement AuthenticationMethod=\"",
    Hole(0,
    Text("\" AuthenticationInstant=\"",
    Hole(1,
    Text("\" xmlns=\"urn:oasis:names:tc:SAML:1.0:assertion\">",
    Hole(2,
    Hole(3,
    Hole(4,
    Text("</AuthenticationStatement>", Done)))))))))

  const SamlConditionsTemplate :=
    Text("<Conditions ",
    Hole(0,
    Text(" ",
    Hole(1,
    Text(" xmlns=\"urn:oasis:names:tc:SAML:1.0:assertion\">",
    Hole(2,
    Text("</Conditions>", Done)))))))

  const SamlNameIdentifierTemplate :=
    Text("<NameIdentifier NameQualifier=\"",
    Hole(0,
    Text("\" Format=\"",
    Hole(1,
    Text("\" xmlns=\"urn:oasis:names:tc:SAML:1.0:assertion\">",
    Hole(2,
    Text("</NameIdentifier>", Done)))))))

  const SamlConfirmationMethodTemplate :=
    Text("<ConfirmationMethod xmlns=\"urn:oasis:names:tc:SAML:1.0:assertion\">",
    Hole(0,
    Text("</ConfirmationMethod>", Done)))

  const SamlAdviceTemplate :=
    Text("<Advice xmlns=\"urn:oasis:names:tc:SAML:1.0:assertion\">",
    Hole(0,
    Hole(1,
    Text("</Advice>", Done))))

  /** Cut after the header attributes; the rest is `SamlAssertionContent`. */
  const SamlAssertionTemplate :=
    Text("<Assertion MajorVersion=\"",
    Hole(0,
    Text("\" MinorVersion=\"",
    Hole(1,
    Text("\" AssertionID=\"",
    Hole(2,
    Text("\" Issuer=\"",
    Hole(3,
    Text("\" IssueInstant=\"",
    Hole(4, SamlAssertionContent))))))))))

  const SamlAssertionContent :=
    Text("\" xmlns=\"urn:oasis:names:tc:SAML:1.0:assertion\">",
    Hole(5,
    Hole(6,
    Hole(7,
    Hole(8,
    Text("</Assertion>", Done))))))

  const SamlAssertionIDRefTemplate :=
    Text("<AssertionIDReference xmlns=\"urn:oasis:names:tc:SAML:1.0:assertion\">",
    Hole(0,
    Text("</AssertionIDReference>", Done)))

  const SamlAuthorizationDecisionStatementTemplate :=
    Text("<AuthorizationDecisionStatement Resource=\"",
    Hole(0,
    Text("\" Decision=\"",
    Hole(1,
    Text("\" xmlns=\"urn:oasis:names:tc:SAML:1.0:assertion\">",
    Hole(2,
    Hole(3,
    Hole(4,
    Text("</AuthorizationDecisionStatement>", Done)))))))))

  const SamlEvidenceTemplate :=
    Text("<Evidence xmlns=\"urn:oasis:names:tc:SAML:1.0:assertion\">",
    Hole(0,
    Hole(1,
    Text("</Evidence>", Done))))

  const SamlSubjectConfirmationTemplate :=
    Text("<SubjectConfirmation xmlns=\"urn:oasis:names:tc:SAML:1.0:assertion\">",
    Hole(0,
    Text("<SubjectConfirmationData>\"",
    Hole(1,
    Text("\"</SubjectConfirmationData></SubjectConfirmation>", Done)))))

  const SamlSubjectTemplate :=
    Text("<Subject xmlns=\"urn:oasis:names:tc:SAML:1.0:assertion\">",
    Hole(0,
    Text(" ",
    Hole(1,
    Text("</Subject>", Done)))))

  // Every emitter passes exactly as many arguments as its template has
  // holes, so `string.Format` never raises FormatException here.

  lemma AttributesTemplateArities()
    ensures Arity(SamlActionTemplate) == 3
    ensures Arity(SamlAttributeValueTemplate) == 2
    ensures Arity(SamlAttributeTemplate) == 3
    ensures Arity(SamlAttributeStatementTemplate) == 2
    ensures Arity(SamlAudienceTemplate) == 1
    ensures Arity(SamlAudienceRestrictionConditionTemplate) == 1
  {
  }

  lemma StatementsTemplateArities()
    ensures Arity(SamlSubjectLocalityTemplate) == 2
    ensures Arity(SamlAuthorityBindingTemplate) == 3
    ensures Arity(SamlAuthenticationStatementTemplate) == 5
    ensures Arity(SamlConditionsTemplate) == 3
  {
  }

  lemma SubjectsTemplateArities()
    ensures Arity(SamlNameIdentifierTemplate) == 3
    ensures Arity(SamlConfirmationMethodTemplate) == 1
    ensures Arity(SamlSubjectConfirmationTemplate) == 2
    ensures Arity(SamlSubjectTemplate) == 2
  {
  }

  lemma AssertionsTemplateArities()
    ensures Arity(SamlAdviceTemplate) == 2
    ensures Arity(SamlAssertionTemplate) == 9
    ensures Arity(SamlAssertionIDRefTemplate) == 1
    ensures Arity(SamlAuthorizationDecisionStatementTemplate) == 5
    ensures Arity(SamlEvidenceTemplate) == 2
  {
    assert Arity(SamlAssertionContent) == 9;
  }

  /**
   * `NotBeforeXml`: the `NotBefore` attribute of `Conditions`, or nothing at
   * all when the bound is null or empty.
   */
  function NotBeforeXml(notBefore: string): (r: string)
    ensures r == "" <==> notBefore == ""
    ensures notBefore != "" ==> r == "NotBefore = \"" + notBefore + "\""
  {
    if notBefore == "" then "" else "NotBefore = \"" + notBefore + "\""
  }

  /** `NotOnOrAfterXml`: the same for the `NotOnOrAfter` attribute. */
  function NotOnOrAfterXml(notOnOrAfter: string): (r: string)
    ensures r == "" <==> notOnOrAfter == ""
    ensures notOnOrAfter != "" ==> r == "NotOnOrAfter = \"" + notOnOrAfter + "\""
  {
    if notOnOrAfter == "" then "" else "NotOnOrAfter = \"" + notOnOrAfter + "\""
  }

  /**
   * Reads a validity bound back from the attribute text the two helpers
   * write: `None` for no attribute, the quoted value otherwise.
   */
  function BoundValue(name: string, attribute: string): Option<string>
  {
    var prefix := name + " = \"";
    if |attribute| >= |prefix| + 1 && attribute[..|prefix|] == prefix
       && attribute[|attribute| - 1] == '"'
    then Some(attribute[|prefix|..|attribute| - 1])
    else None
  }

  lemma {:induction false} BoundRoundTrip(name: string, value: string)
    ensures BoundValue(name, "") == None
    ensures value != "" ==> BoundValue(name, name + " = \"" + value + "\"") == Some(value)
  {
    if value != "" {
      var prefix := name + " = \"";
      var attribute := prefix + value + "\"";
      assert attribute[..|prefix|] == prefix;
      assert attribute[|prefix|..|attribute| - 1] == value;
    }
  }

  /** The `NotBefore` attribute round-trips: no attribute exactly when there
      is no bound, and the bound itself otherwise. */
  lemma NotBeforeRoundTrip(notBefore: string)
    ensures BoundValue("NotBefore", NotBeforeXml(notBefore))
      == if notBefore == "" then None else Some(notBefore)
  {
    BoundRoundTrip("NotBefore", notBefore);
  }

  lemma NotOnOrAfterRoundTrip(notOnOrAfter: string)
    ensures BoundValue("NotOnOrAfter", NotOnOrAfterXml(notOnOrAfter))
      == if notOnOrAfter == "" then None else Some(notOnOrAfter)
  {
    BoundRoundTrip("NotOnOrAfter", notOnOrAfter);
  }

  /** A null list renders as nothing; otherwise its strings are joined in order. */
  function ConcatOrEmpty(values: Option<seq<string>>): string
  {
    match values
    case None => ""
    case Some(vs) => Concat(vs)
  }

  /** Concatenating two lists of fragments concatenates their renderings. */
  lemma ConcatOrEmptyAppend(a: seq<string>, b: seq<string>)
    ensures ConcatOrEmpty(Some(a + b)) == ConcatOrEmpty(Some(a)) + ConcatOrEmpty(Some(b))
    ensures ConcatOrEmpty(Some([])) == ConcatOrEmpty(None) == ""
  {
    ConcatAppend(a, b);
  }

  /**
   * `SamlAttributeXml`: a null or empty name or namespace becomes the empty
   * string, and a null list of attribute values becomes empty content.
   */
  function SamlAttributeXml(name: string, attributeNs: string, attributes: Option<seq<string>>): (r: string)
    ensures r == "<Attribute AttributeName=\"" + name + "\" AttributeNamespace=\"" + attributeNs
      + "\" xmlns=\"urn:oasis:names:tc:SAML:1.0:assertion\">" + ConcatOrEmpty(attributes) + "</Attribute>"
  {
    // Null is already "", so replacing a null or empty name or namespace by "" changes nothing.
    var args := [name, attributeNs, ConcatOrEmpty(attributes)];
    FormatSteps(args);
    Format(SamlAttributeTemplate, args)
  }

  /**
   * `SamlAudienceRestrictionConditionXml`: unlike its neighbours it does not
   * guard against a null list, so `string.Concat` throws for one.
   */
  function SamlAudienceRestrictionConditionXml(audiences: Option<seq<string>>): (r: Result<string, NullError>)
    ensures r.Failure? <==> audiences.None?
    ensures audiences.Some? ==> r == Success("<AudienceRestrictionCondition xmlns=\"urn:oasis:names:tc:SAML:1.0:assertion\">"
      + Concat(audiences.value) + "</AudienceRestrictionCondition>")
  {
    match audiences
    case None => Failure(ArgumentNull)
    case Some(vs) =>
      var args := [Concat(vs)];
      FormatSteps(args);
      Success(Format(SamlAudienceRestrictionConditionTemplate, args))
  }

  /**
   * `SamlConditionsXml`: the two validity bounds as optional attributes, and
   * the conditions, a null list rendering as empty content.
   */
  function SamlConditionsXml(notBefore: string, notOnOrAfter: string, conditions: Option<seq<string>>): (r: string)
    ensures r == "<Conditions " + NotBeforeXml(notBefore) + " " + NotOnOrAfterXml(notOnOrAfter)
      + " xmlns=\"urn:oasis:names:tc:SAML:1.0:assertion\">" + ConcatOrEmpty(conditions) + "</Conditions>"
  {
    var args := [NotBeforeXml(notBefore), NotOnOrAfterXml(notOnOrAfter), ConcatOrEmpty(conditions)];
    FormatSteps(args);
    Format(SamlConditionsTemplate, args)
  }

  /**
   * `SamlSubjectConfirmationXml`: the confirmation methods, a null list
   * rendering as nothing, then the confirmation data wrapped in literal quotes.
   */
  function SamlSubjectConfirmationXml(confirmations: Option<seq<string>>, confirmationData: string): (r: string)
    ensures r == "<SubjectConfirmation xmlns=\"urn:oasis:names:tc:SAML:1.0:assertion\">" + ConcatOrEmpty(confirmations)
      + "<SubjectConfirmationData>\"" + confirmationData + "\"</SubjectConfirmationData></SubjectConfirmation>"
  {
    var args := [ConcatOrEmpty(confirmations), confirmationData];
    FormatSteps(args);
    Format(SamlSubjectConfirmationTemplate, args)
  }

  /** `SamlActionXml`: the action namespace goes into the `Namespace` attribute and
      `namespace` into `xmlns`, the reverse of the parameter order. */
  function SamlActionXml(namespace: string, actionNamespace: string, action: string): (r: string)
    ensures r == "<Action Namespace=\"" + actionNamespace + "\" xmlns=\"" + namespace
      + "\">" + action + "</Action>"
  {
    var args := [actionNamespace, namespace, action];
    FormatSteps(args);
    Format(SamlActionTemplate, args)
  }

  function SamlAttributeValueXml(namespace: string, value: string): (r: string)
    ensures r == "<AttributeValue xmlns=\"" + namespace + "\">" + value
      + "</AttributeValue>"
  {
    var args := [namespace, value];
    FormatSteps(args);
    Format(SamlAttributeValueTemplate, args)
  }

  function SamlAttributeStatementXml(subject: string, attributes: string): (r: string)
    ensures r == "<AttributeStatement xmlns=\"urn:oasis:names:tc:SAML:1.0:assertion\">" + subject + " " + attributes
      + "</AttributeStatement>"
  {
    var args := [subject, attributes];
    FormatSteps(args);
    Format(SamlAttributeStatementTemplate, args)
  }

  function SamlAudienceXml(audience: string): (r: string)
    ensures r == "<Audience xmlns=\"urn:oasis:names:tc:SAML:1.0:assertion\">" + audience + "</Audience>"
  {
    var args := [audience];
    FormatSteps(args);
    Format(SamlAudienceTemplate, args)
  }

  function SamlSubjectLocalityXml(ipAddress: string, dnsAddress: string): (r: string)
    ensures r == "<SubjectLocality IPAddress=\"" + ipAddress + "\" DNSAddress=\"" + dnsAddress
      + "\" xmlns=\"urn:oasis:names:tc:SAML:1.0:assertion\"/>"
  {
    var args := [ipAddress, dnsAddress];
    FormatSteps(args);
    Format(SamlSubjectLocalityTemplate, args)
  }

  function SamlAuthorityBindingXml(authorityKind: string, location: string, binding: string): (r: string)
    ensures r == "<AuthorityBinding AuthorityKind=\"" + authorityKind + "\" Location=\"" + location
      + "\" Binding=\"" + binding + "\" xmlns=\"urn:oasis:names:tc:SAML:1.0:assertion\"/>"
  {
    var args := [authorityKind, location, binding];
    FormatSteps(args);
    Format(SamlAuthorityBindingTemplate, args)
  }

  function SamlAuthenticationStatementXml(authenticationMethod: string, instant: string, subject: string, subjectLocality: string, binding: string): (r: string)
    ensures r == "<AuthenticationStatement AuthenticationMethod=\"" + authenticationMethod + "\" AuthenticationInstant=\"" + instant
      + "\" xmlns=\"urn:oasis:names:tc:SAML:1.0:assertion\">" + subject + subjectLocality + binding
      + "</AuthenticationStatement>"
  {
    var args := [authenticationMethod, instant, subject, subjectLocality, binding];
    FormatSteps(args);
    Format(SamlAuthenticationStatementTemplate, args)
  }

  function SamlNameIdentifierXml(nameQualifier: string, format: string, name: string): (r: string)
    ensures r == "<NameIdentifier NameQualifier=\"" + nameQualifier + "\" Format=\"" + format
      + "\" xmlns=\"urn:oasis:names:tc:SAML:1.0:assertion\">" + name + "</NameIdentifier>"
  {
    var args := [nameQualifier, format, name];
    FormatSteps(args);
    Format(SamlNameIdentifierTemplate, args)
  }

  function SamlConfirmationMethodXml(confirmationMethod: string): (r: string)
    ensures r == "<ConfirmationMethod xmlns=\"urn:oasis:names:tc:SAML:1.0:assertion\">" + confirmationMethod + "</ConfirmationMethod>"
  {
    var args := [confirmationMethod];
    FormatSteps(args);
    Format(SamlConfirmationMethodTemplate, args)
  }

  function SamlAdviceXml(assertionIDRef: string, assertion: string): (r: string)
    ensures r == "<Advice xmlns=\"urn:oasis:names:tc:SAML:1.0:assertion\">" + assertionIDRef + assertion + "</Advice>"
  {
    var args := [assertionIDRef, assertion];
    FormatSteps(args);
    Format(SamlAdviceTemplate, args)
  }

  function SamlAssertionXml(majorVersion: string, minorVersion: string, assertionId: string, issuer: string, issueInstant: string, conditions: string, advices: string, statements: string, signatures: string): (r: string)
    ensures r == "<Assertion MajorVersion=\"" + majorVersion + "\" MinorVersion=\"" + minorVersion
      + "\" AssertionID=\"" + assertionId + "\" Issuer=\"" + issuer
      + "\" IssueInstant=\"" + issueInstant + "\" xmlns=\"urn:oasis:names:tc:SAML:1.0:assertion\">" + conditions
      + advices + statements + signatures + "</Assertion>"
  {
    var args := [majorVersion, minorVersion, assertionId, issuer, issueInstant, conditions, advices, statements, signatures];
    FormatSteps(args);
    var header := "<Assertion MajorVersion=\"" + majorVersion + "\" MinorVersion=\"" + minorVersion
      + "\" AssertionID=\"" + assertionId + "\" Issuer=\"" + issuer
      + "\" IssueInstant=\"" + issueInstant;
    assert Format(SamlAssertionTemplate, args) == Emit(SamlAssertionContent, args, header);
    Format(SamlAssertionTemplate, args)
  }

  function SamlAssertionIDRefXml(assertionID: string): (r: string)
    ensures r == "<AssertionIDReference xmlns=\"urn:oasis:names:tc:SAML:1.0:assertion\">" + assertionID + "</AssertionIDReference>"
  {
    var args := [assertionID];
    FormatSteps(args);
    Format(SamlAssertionIDRefTemplate, args)
  }

  function SamlAuthorizationDecisionStatementXml(resource: string, decision: string, subject: string, action: string, evidence: string): (r: string)
    ensures r == "<AuthorizationDecisionStatement Resource=\"" + resource + "\" Decision=\"" + decision
      + "\" xmlns=\"urn:oasis:names:tc:SAML:1.0:assertion\">" + subject + action + evidence
      + "</AuthorizationDecisionStatement>"
  {
    var args := [resource, decision, subject, action, evidence];
    FormatSteps(args);
    Format(SamlAuthorizationDecisionStatementTemplate, args)
  }

  function SamlEvidenceXml(assertionIdRef: string, assertion: string): (r: string)
    ensures r == "<Evidence xmlns=\"urn:oasis:names:tc:SAML:1.0:assertion\">" + assertionIdRef + assertion + "</Evidence>"
  {
    var args := [assertionIdRef, assertion];
    FormatSteps(args);
    Format(SamlEvidenceTemplate, args)
  }

  function SamlSubjectXml(nameIdentifier: string, confirmation: string): (r: string)
    ensures r == "<Subject xmlns=\"urn:oasis:names:tc:SAML:1.0:assertion\">" + nameIdentifier + " " + confirmation
      + "</Subject>"
  {
    var args := [nameIdentifier, confirmation];
    FormatSteps(args);
    Format(SamlSubjectTemplate, args)
  }
}
