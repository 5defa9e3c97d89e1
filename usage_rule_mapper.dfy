/** The usage-policy encoder: an abstract usage policy becomes the IDS
    (ODRL-flavoured) JSON-LD `ids:Permission` document sent to the connector
    as a contract rule. */
module UsageRuleMapper {
  import opened Wrappers
  import opened Json
  import opened Errors

  /** A point in time; `iso` is the text `toISOString()` gives for it. */
  datatype Instant = Instant(iso: string)

  /** A usage policy as the controller receives it, tagged by its `type`.
      `OtherPolicy` is a policy whose type tag this controller does not
      implement: `policyType` is never one of the three implemented tags, since
      a policy carrying one of those is the corresponding constructor. */
  datatype UsagePolicy =
    | UnrestrictedPolicy
    | NumberUsagesRestricted(usageTimes: int)
    | TimerangeRestricted(startTime: Instant, endTime: Instant)
    | OtherPolicy(policyType: string)

  /** The rule descriptor handed to the connector: the permission document. */
  datatype ContractRuleDesc = ContractRuleDesc(value: Json)

  const NotImplementedMessage := "Usage policy not implemented by connector controller."

  const IdsCore := "https://w3id.org/idsa/core/"
  const IdsCode := "https://w3id.org/idsa/code/"
  const XsdNamespace := "http://www.w3.org/2001/XMLSchema#"
  const XsdString := "http://www.w3.org/2001/XMLSchema#string"
  const XsdDouble := "http://www.w3.org/2001/XMLSchema#double"
  const UseIri := "https://w3id.org/idsa/code/USE"
  const EvaluationTimeIri := "https://w3id.org/idsa/code/POLICY_EVALUATION_TIME"
  const AfterIri := "https://w3id.org/idsa/code/AFTER"
  const BeforeIri := "https://w3id.org/idsa/code/BEFORE"

  /** The fixed identifiers the documents carry (they are not generated per call). */
  const UnrestrictedPermissionId :=
    "https://w3id.org/idsa/autogen/permission/cf1cb758-b96d-4486-b0a7-f3ac0e289588"
  const NumberUsagesPermissionId :=
    "https://w3id.org/idsa/autogen/permission/4ad88c11-a00c-4479-94f6-2a68cce005ea"
  const CountConstraintId :=
    "https://w3id.org/idsa/autogen/constraint/a5d77dcd-f838-48e9-bdc1-4b219946f8ac"
  const TimerangePermissionId :=
    "https://w3id.org/idsa/autogen/permission/8bca11ab-e5f7-4e13-9c2b-5b3ab1f924c9"
  const AfterConstraintId :=
    "https://w3id.org/idsa/autogen/constraint/552e3c42-64b4-4df6-ae21-495f7e79ee11"
  const BeforeConstraintId :=
    "https://w3id.org/idsa/autogen/constraint/e240b9da-3be4-4422-99b3-9d82d4fa45ea"

  // ---------------------------------------------------------------------
  // What a permission document says, read back from the JSON-LD tree
  // ---------------------------------------------------------------------

  datatype ConstraintView = ConstraintView(
    id: string, leftOperand: string, operator: string,
    rightOperand: Json, rightOperandType: string)

  /** `constraints` is None when the document has no `ids:constraint` field. */
  datatype PermissionView = PermissionView(
    id: string, actions: seq<string>, constraints: Option<seq<ConstraintView>>)

  function ReadAction(a: Json): Option<string> {
    TextAt(a, [Key("@id")])
  }

  function ReadConstraint(c: Json): Option<ConstraintView> {
    if TextAt(c, [Key("@type")]) != Some("ids:Constraint") then None
    else
      match (TextAt(c, [Key("@id")]),
             TextAt(c, [Key("ids:leftOperand"), Key("@id")]),
             TextAt(c, [Key("ids:operator"), Key("@id")]),
             At(c, [Key("ids:rightOperand"), Key("@value")]),
             TextAt(c, [Key("ids:rightOperand"), Key("@type")]))
      case (Some(id), Some(left), Some(op), Some(value), Some(t)) =>
        Some(ConstraintView(id, left, op, value, t))
      case _ => None
  }

  /** The permission an `ids:Permission` document states; None for anything else. */
  function ReadPermission(doc: Json): Option<PermissionView> {
    if !doc.Obj? || TextAt(doc, [Key("@type")]) != Some("ids:Permission") then None
    else
      match (TextAt(doc, [Key("@id")]), ItemsAt(doc, [Key("ids:action")]))
      case (Some(id), Some(actions)) =>
        (match MapSome(ReadAction, actions)
         case None => None
         case Some(names) =>
           match Lookup(doc.fields, "ids:constraint")
           case None => Some(PermissionView(id, names, None))
           case Some(Arr(cs)) =>
             (match MapSome(ReadConstraint, cs)
              case None => None
              case Some(views) => Some(PermissionView(id, names, Some(views))))
           case Some(_) => None)
      case _ => None
  }

  /** The usage policy a permission expresses, independently of how it is spelled. */
  function PolicyOf(view: PermissionView): Option<UsagePolicy> {
    match view.constraints
    case None => Some(UnrestrictedPolicy)
    case Some(cs) =>
      if |cs| == 1 && cs[0].leftOperand == "idsc:COUNT" && cs[0].operator == "idsc:LTEQ"
         && cs[0].rightOperand.Num?
      then Some(NumberUsagesRestricted(cs[0].rightOperand.n))
      else if |cs| == 2
         && cs[0].leftOperand == EvaluationTimeIri && cs[0].operator == AfterIri
         && cs[1].leftOperand == EvaluationTimeIri && cs[1].operator == BeforeIri
         && cs[0].rightOperand.Str? && cs[1].rightOperand.Str?
      then Some(TimerangeRestricted(Instant(cs[0].rightOperand.s), Instant(cs[1].rightOperand.s)))
      else None
  }

  /** Position of the first ':' in `s` at or after `from`. */
  function ColonFrom(s: string, from: nat): (r: Option<nat>)
    requires from <= |s|
    ensures r.Some? ==> from <= r.value < |s| && s[r.value] == ':' &&
                        forall i :: from <= i < r.value ==> s[i] != ':'
    ensures r.None? ==> forall i :: from <= i < |s| ==> s[i] != ':'
    decreases |s| - from
  {
    if from == |s| then None
    else if s[from] == ':' then Some(from)
    else ColonFrom(s, from + 1)
  }

  /** JSON-LD compact-IRI expansion of `prefix:suffix` against a `@context`;
      any other string is left as it is. */
  function ExpandIri(context: Json, iri: string): string {
    match ColonFrom(iri, 0)
    case None => iri
    case Some(k) =>
      match TextAt(context, [Key(iri[..k])])
      case None => iri
      case Some(base) => base + iri[k + 1..]
  }

  // ---------------------------------------------------------------------
  // The three documents
  // ---------------------------------------------------------------------

  function TypedValue(value: Json, valueType: string): Json {
    Obj([("@value", value), ("@type", Str(valueType))])
  }

  function IdRef(id: string): Json {
    Obj([("@id", Str(id))])
  }

  function IdsContext(): Json {
    Obj([("ids", Str(IdsCore)), ("idsc", Str(IdsCode))])
  }

  function TimerangeContext(): Json {
    Obj([("xsd", Str(XsdNamespace)), ("ids", Str(IdsCore)), ("idsc", Str(IdsCode))])
  }

  /** The `@context` of a document (an empty one if it has none). */
  function ContextOf(doc: Json): Json {
    match At(doc, [Key("@context")])
    case Some(ctx) => ctx
    case None => Obj([])
  }

  /** One `ids:Constraint`: `leftOperand operator rightOperand`. */
  function ConstraintObj(id: string, rightOperand: Json, rightOperandType: string,
                         leftOperand: string, operator: string): (c: Json)
    ensures ReadConstraint(c) ==
            Some(ConstraintView(id, leftOperand, operator, rightOperand, rightOperandType))
  {
    var fs := [
      ("@type", Str("ids:Constraint")),
      ("@id", Str(id)),
      ("ids:rightOperand", TypedValue(rightOperand, rightOperandType)),
      ("ids:leftOperand", IdRef(leftOperand)),
      ("ids:operator", IdRef(operator))
    ];
    LookupAt(fs, "@type", 0);
    LookupAt(fs, "@id", 1);
    LookupAt(fs, "ids:rightOperand", 2);
    LookupAt(fs, "ids:leftOperand", 3);
    LookupAt(fs, "ids:operator", 4);
    AtOne(Obj(fs), Key("@type"));
    AtOne(Obj(fs), Key("@id"));
    LookupAt(TypedValue(rightOperand, rightOperandType).fields, "@type", 1);
    AtTwoKeys(Obj(fs), "ids:leftOperand", "@id");
    AtTwoKeys(Obj(fs), "ids:operator", "@id");
    AtTwoKeys(Obj(fs), "ids:rightOperand", "@value");
    AtTwoKeys(Obj(fs), "ids:rightOperand", "@type");
    Obj(fs)
  }

  /** Where the `@type`, `@id` and `ids:action` fields of a permission document are. */
  lemma PermissionHeader(fs: Fields, typeAt: nat, idAt: nat, actionAt: nat)
    requires typeAt < |fs| && fs[typeAt].0 == "@type"
    requires idAt < |fs| && fs[idAt].0 == "@id"
    requires actionAt < |fs| && fs[actionAt].0 == "ids:action"
    requires forall j :: 0 <= j < typeAt ==> fs[j].0 != "@type"
    requires forall j :: 0 <= j < idAt ==> fs[j].0 != "@id"
    requires forall j :: 0 <= j < actionAt ==> fs[j].0 != "ids:action"
    ensures TextAt(Obj(fs), [Key("@type")]) == if fs[typeAt].1.Str? then Some(fs[typeAt].1.s) else None
    ensures TextAt(Obj(fs), [Key("@id")]) == if fs[idAt].1.Str? then Some(fs[idAt].1.s) else None
    ensures ItemsAt(Obj(fs), [Key("ids:action")]) ==
            if fs[actionAt].1.Arr? then Some(fs[actionAt].1.items) else None
  {
    LookupAt(fs, "@type", typeAt);
    LookupAt(fs, "@id", idAt);
    LookupAt(fs, "ids:action", actionAt);
    AtOne(Obj(fs), Key("@type"));
    AtOne(Obj(fs), Key("@id"));
    AtOne(Obj(fs), Key("ids:action"));
  }

  /** How a permission document with a list of constraints is read. */
  lemma ReadConstrainedPermission(doc: Json, id: string, actions: seq<Json>, names: seq<string>,
                                  cs: seq<Json>, views: seq<ConstraintView>)
    requires doc.Obj? && TextAt(doc, [Key("@type")]) == Some("ids:Permission")
    requires TextAt(doc, [Key("@id")]) == Some(id)
    requires ItemsAt(doc, [Key("ids:action")]) == Some(actions) && MapSome(ReadAction, actions) == Some(names)
    requires Lookup(doc.fields, "ids:constraint") == Some(Arr(cs)) && MapSome(ReadConstraint, cs) == Some(views)
    ensures ReadPermission(doc) == Some(PermissionView(id, names, Some(views)))
  {
  }

  /** The document for an absent or unrestricted policy: one USE action, no constraint. */
  function UnrestrictedPolicyRule(): (r: ContractRuleDesc)
    ensures ReadPermission(r.value) ==
            Some(PermissionView(UnrestrictedPermissionId, ["idsc:USE"], None))
    ensures ContextOf(r.value) == IdsContext()
  {
    var fs := [
      ("@context", IdsContext()),
      ("@type", Str("ids:Permission")),
      ("@id", Str(UnrestrictedPermissionId)),
      ("ids:action", Arr([IdRef("idsc:USE")])),
      ("ids:description", Arr([TypedValue(Str("provide-access"), XsdString)])),
      ("ids:title", Arr([TypedValue(Str("Example Usage Policy"), XsdString)]))
    ];
    PermissionHeader(fs, 1, 2, 3);
    AtOne(Obj(fs), Key("@context"));
    LookupMissing(fs, "ids:constraint");
    MapSomeOne(ReadAction, IdRef("idsc:USE"));
    ContractRuleDesc(Obj(fs))
  }

  /** The COUNT <= usageTimes constraint. */
  function CountConstraint(usageTimes: int): Json {
    ConstraintObj(CountConstraintId, Num(usageTimes), XsdDouble, "idsc:COUNT", "idsc:LTEQ")
  }

  /** The at-most-`usageTimes` permission document, fields in source order. */
  function NumberUsagesDocument(usageTimes: int): Json {
    Obj([
      ("@context", IdsContext()),
      ("@type", Str("ids:Permission")),
      ("@id", Str(NumberUsagesPermissionId)),
      ("ids:description", Arr([TypedValue(Str("n-times-usage"), XsdString)])),
      ("ids:title", Arr([TypedValue(Str("Example Usage Policy"), XsdString)])),
      ("ids:action", Arr([IdRef("idsc:USE")])),
      ("ids:constraint", Arr([CountConstraint(usageTimes)]))
    ])
  }

  /** The type, id and action of the at-most-`usageTimes` document. */
  lemma NumberUsagesHeader(usageTimes: int)
    ensures var doc := NumberUsagesDocument(usageTimes);
      && doc.Obj? && TextAt(doc, [Key("@type")]) == Some("ids:Permission")
      && TextAt(doc, [Key("@id")]) == Some(NumberUsagesPermissionId)
      && ItemsAt(doc, [Key("ids:action")]) == Some([IdRef("idsc:USE")])
  {
    PermissionHeader(NumberUsagesDocument(usageTimes).fields, 1, 2, 5);
  }

  /** The constraints of the at-most-`usageTimes` document. */
  lemma NumberUsagesConstraints(usageTimes: int)
    ensures var doc := NumberUsagesDocument(usageTimes);
      doc.Obj? && Lookup(doc.fields, "ids:constraint") == Some(Arr([CountConstraint(usageTimes)]))
  {
    LookupAt(NumberUsagesDocument(usageTimes).fields, "ids:constraint", 6);
  }

  /** The `@context` of the at-most-`usageTimes` document. */
  lemma NumberUsagesContextField(usageTimes: int)
    ensures ContextOf(NumberUsagesDocument(usageTimes)) == IdsContext()
  {
    var doc := NumberUsagesDocument(usageTimes);
    LookupAt(doc.fields, "@context", 0);
    AtOne(doc, Key("@context"));
  }

  /** The document for at most `usageTimes` uses: one COUNT <= usageTimes constraint. */
  function NumberUsagesRestrictedRule(usageTimes: int): (r: ContractRuleDesc)
    ensures ReadPermission(r.value) ==
            Some(PermissionView(NumberUsagesPermissionId, ["idsc:USE"], Some([
              ConstraintView(CountConstraintId, "idsc:COUNT", "idsc:LTEQ", Num(usageTimes), XsdDouble)
            ])))
    ensures ContextOf(r.value) == IdsContext()
  {
    var doc := NumberUsagesDocument(usageTimes);
    NumberUsagesHeader(usageTimes);
    NumberUsagesConstraints(usageTimes);
    NumberUsagesContextField(usageTimes);
    MapSomeOne(ReadAction, IdRef("idsc:USE"));
    MapSomeOne(ReadConstraint, CountConstraint(usageTimes));
    ReadConstrainedPermission(doc, NumberUsagesPermissionId, [IdRef("idsc:USE")], ["idsc:USE"],
      [CountConstraint(usageTimes)],
      [ConstraintView(CountConstraintId, "idsc:COUNT", "idsc:LTEQ", Num(usageTimes), XsdDouble)]);
    ContractRuleDesc(doc)
  }

  /** The evaluation time AFTER startTime. */
  function AfterConstraint(startTime: Instant): Json {
    ConstraintObj(AfterConstraintId, Str(startTime.iso), "xsd:dateTimeStamp", EvaluationTimeIri, AfterIri)
  }

  /** The evaluation time BEFORE endTime. */
  function BeforeConstraint(endTime: Instant): Json {
    ConstraintObj(BeforeConstraintId, Str(endTime.iso), "xsd:dateTimeStamp", EvaluationTimeIri, BeforeIri)
  }

  /** The time-window permission document, fields in source order. */
  function TimerangeDocument(startTime: Instant, endTime: Instant): Json {
    Obj([
      ("@context", TimerangeContext()),
      ("@type", Str("ids:Permission")),
      ("@id", Str(TimerangePermissionId)),
      ("ids:description", Arr([TypedValue(Str(""), XsdString)])),
      ("ids:title", Arr([TypedValue(Str(""), XsdString)])),
      ("ids:constraint", Arr([AfterConstraint(startTime), BeforeConstraint(endTime)])),
      ("ids:action", Arr([IdRef(UseIri)]))
    ])
  }

  /** The type, id and action of the time-window document. */
  lemma TimerangeHeader(startTime: Instant, endTime: Instant)
    ensures var doc := TimerangeDocument(startTime, endTime);
      && doc.Obj? && TextAt(doc, [Key("@type")]) == Some("ids:Permission")
      && TextAt(doc, [Key("@id")]) == Some(TimerangePermissionId)
      && ItemsAt(doc, [Key("ids:action")]) == Some([IdRef(UseIri)])
  {
    PermissionHeader(TimerangeDocument(startTime, endTime).fields, 1, 2, 6);
  }

  /** The constraints of the time-window document. */
  lemma TimerangeConstraints(startTime: Instant, endTime: Instant)
    ensures var doc := TimerangeDocument(startTime, endTime);
      doc.Obj? && Lookup(doc.fields, "ids:constraint") == Some(Arr([AfterConstraint(startTime), BeforeConstraint(endTime)]))
  {
    LookupAt(TimerangeDocument(startTime, endTime).fields, "ids:constraint", 5);
  }

  /** The `@context` of the time-window document. */
  lemma TimerangeContextField(startTime: Instant, endTime: Instant)
    ensures ContextOf(TimerangeDocument(startTime, endTime)) == TimerangeContext()
  {
    var doc := TimerangeDocument(startTime, endTime);
    LookupAt(doc.fields, "@context", 0);
    AtOne(doc, Key("@context"));
  }

  /** The document for use within a time window: AFTER startTime, then BEFORE endTime. */
  function TimerangeRestrictedRule(startTime: Instant, endTime: Instant): (r: ContractRuleDesc)
    ensures ReadPermission(r.value) ==
            Some(PermissionView(TimerangePermissionId, [UseIri], Some([
              ConstraintView(AfterConstraintId, EvaluationTimeIri, AfterIri, Str(startTime.iso), "xsd:dateTimeStamp"),
              ConstraintView(BeforeConstraintId, EvaluationTimeIri, BeforeIri, Str(endTime.iso), "xsd:dateTimeStamp")
            ])))
    ensures ContextOf(r.value) == TimerangeContext()
  {
    var doc := TimerangeDocument(startTime, endTime);
    TimerangeHeader(startTime, endTime);
    TimerangeConstraints(startTime, endTime);
    TimerangeContextField(startTime, endTime);
    MapSomeOne(ReadAction, IdRef(UseIri));
    MapSomeTwo(ReadConstraint, AfterConstraint(startTime), BeforeConstraint(endTime));
    ReadConstrainedPermission(doc, TimerangePermissionId, [IdRef(UseIri)], [UseIri],
      [AfterConstraint(startTime), BeforeConstraint(endTime)], [
      ConstraintView(AfterConstraintId, EvaluationTimeIri, AfterIri, Str(startTime.iso), "xsd:dateTimeStamp"),
      ConstraintView(BeforeConstraintId, EvaluationTimeIri, BeforeIri, Str(endTime.iso), "xsd:dateTimeStamp")
    ]);
    ContractRuleDesc(doc)
  }

  // ---------------------------------------------------------------------
  // Dispatch on the type tag
  // ---------------------------------------------------------------------

  predicate IsNumberUsagesRestricted(p: UsagePolicy) {
    p.NumberUsagesRestricted?
  }

  predicate IsTimerangeRestricted(p: UsagePolicy) {
    p.TimerangeRestricted?
  }

  predicate IsUnrestrictedPolicy(p: UsagePolicy) {
    p.UnrestrictedPolicy?
  }

  /** `UsageRuleMapper.mapUsagePolicyRule`: an absent policy counts as unrestricted;
      a policy whose tag none of the three guards accepts is an error. */
  function MapUsagePolicyRule(usagePolicy: Option<UsagePolicy>): (r: Result<ContractRuleDesc, Error>)
    ensures r.Failure? <==> usagePolicy.Some? && usagePolicy.value.OtherPolicy?
    ensures r.Failure? ==> r.error == Thrown(NotImplementedMessage)
    ensures usagePolicy.None? ==> r == Success(UnrestrictedPolicyRule())
  {
    if usagePolicy.None? then Success(UnrestrictedPolicyRule())
    else
      var p := usagePolicy.value;
      if IsNumberUsagesRestricted(p) then Success(NumberUsagesRestrictedRule(p.usageTimes))
      else if IsTimerangeRestricted(p) then Success(TimerangeRestrictedRule(p.startTime, p.endTime))
      else if IsUnrestrictedPolicy(p) then Success(UnrestrictedPolicyRule())
      else Failure(Thrown(NotImplementedMessage))
  }

  // ---------------------------------------------------------------------
  // Properties
  // ---------------------------------------------------------------------

  /** At most one of the three type guards accepts a policy, and exactly one
      accepts every policy the controller implements. */
  lemma GuardsAreExclusive(p: UsagePolicy)
    ensures (if IsNumberUsagesRestricted(p) then 1 else 0)
          + (if IsTimerangeRestricted(p) then 1 else 0)
          + (if IsUnrestrictedPolicy(p) then 1 else 0)
         == (if p.OtherPolicy? then 0 else 1)
  {
  }

  /** No policy and the unrestricted policy give the same document. */
  lemma AbsentPolicyIsUnrestricted()
    ensures MapUsagePolicyRule(None) == MapUsagePolicyRule(Some(UnrestrictedPolicy))
  {
  }

  /** The document of an implemented policy reads back as that very policy:
      the encoding loses nothing and confuses no two policies. */
  lemma MapUsagePolicyRuleRoundTrip(p: UsagePolicy)
    requires !p.OtherPolicy?
    ensures MapUsagePolicyRule(Some(p)).Success?
    ensures ReadPermission(MapUsagePolicyRule(Some(p)).value.value).Some?
    ensures PolicyOf(ReadPermission(MapUsagePolicyRule(Some(p)).value.value).value) == Some(p)
  {
  }

  /** `idsc:USE` under the `ids`/`idsc` context is the USE IRI. */
  lemma CompactUseExpands(ctx: Json)
    requires ctx == IdsContext() || ctx == TimerangeContext()
    ensures ExpandIri(ctx, "idsc:USE") == UseIri
  {
    assert ColonFrom("idsc:USE", 0) == Some(4);
    assert "idsc:USE"[..4] == "idsc";
    assert "idsc:USE"[5..] == "USE";
    LookupAt(ctx.fields, "idsc", if ctx == IdsContext() then 1 else 2);
    AtOne(ctx, Key("idsc"));
  }

  /** The full USE IRI is left as it is: its scheme `https` is no prefix of the context. */
  lemma FullUseExpands(ctx: Json)
    requires ctx == IdsContext() || ctx == TimerangeContext()
    ensures ExpandIri(ctx, UseIri) == UseIri
  {
    assert UseIri[5] == ':' && forall i :: 0 <= i < 5 ==> UseIri[i] != ':';
    assert UseIri[..5] == "https";
    LookupMissing(ctx.fields, "https");
    AtOne(ctx, Key("https"));
  }

  /** Every document is an `ids:Permission` with a single action, and that
      action expands, under the document's own `@context`, to the USE IRI
      (the time-window document spells it out, the other two use `idsc:USE`). */
  lemma EveryRuleHasOneUseAction(usagePolicy: Option<UsagePolicy>)
    requires MapUsagePolicyRule(usagePolicy).Success?
    ensures var doc := MapUsagePolicyRule(usagePolicy).value.value;
      && ReadPermission(doc).Some?
      && |ReadPermission(doc).value.actions| == 1
      && ExpandIri(ContextOf(doc), ReadPermission(doc).value.actions[0]) == UseIri
  {
    if usagePolicy.Some? && usagePolicy.value.TimerangeRestricted? {
      FullUseExpands(TimerangeContext());
    } else {
      CompactUseExpands(IdsContext());
    }
  }

  /** The identifiers are constants: two policies of the same kind give documents
      with the same permission and constraint identifiers, whatever their parameters. */
  lemma IdentifiersAreFixed(p: UsagePolicy, q: UsagePolicy)
    requires !p.OtherPolicy? && !q.OtherPolicy?
    requires p.NumberUsagesRestricted? == q.NumberUsagesRestricted?
    requires p.TimerangeRestricted? == q.TimerangeRestricted?
    ensures var vp := ReadPermission(MapUsagePolicyRule(Some(p)).value.value).value;
            var vq := ReadPermission(MapUsagePolicyRule(Some(q)).value.value).value;
      && vp.id == vq.id
      && (vp.constraints.Some? <==> vq.constraints.Some?)
      && (vp.constraints.Some? ==>
            |vp.constraints.value| == |vq.constraints.value| &&
            forall i :: 0 <= i < |vp.constraints.value| ==>
              vp.constraints.value[i].id == vq.constraints.value[i].id)
  {
    if p.NumberUsagesRestricted? {
      assert MapUsagePolicyRule(Some(p)).value == NumberUsagesRestrictedRule(p.usageTimes);
      assert MapUsagePolicyRule(Some(q)).value == NumberUsagesRestrictedRule(q.usageTimes);
    } else if p.TimerangeRestricted? {
      assert MapUsagePolicyRule(Some(p)).value == TimerangeRestrictedRule(p.startTime, p.endTime);
      assert MapUsagePolicyRule(Some(q)).value == TimerangeRestrictedRule(q.startTime, q.endTime);
    } else {
      assert MapUsagePolicyRule(Some(p)).value == UnrestrictedPolicyRule();
      assert MapUsagePolicyRule(Some(q)).value == UnrestrictedPolicyRule();
    }
  }

  /** Different kinds of policy carry different permission identifiers. */
  lemma PermissionIdsDistinguishKinds(p: UsagePolicy, q: UsagePolicy)
    requires !p.OtherPolicy? && !q.OtherPolicy?
    requires ReadPermission(MapUsagePolicyRule(Some(p)).value.value).value.id ==
             ReadPermission(MapUsagePolicyRule(Some(q)).value.value).value.id
    ensures p.NumberUsagesRestricted? == q.NumberUsagesRestricted?
    ensures p.TimerangeRestricted? == q.TimerangeRestricted?
  {
  }
}
