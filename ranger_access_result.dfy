/**
 * `org.apache.ranger.plugin.policyengine.RangerAccessResult`: the mutable
 * record in which the policy engine collects its access and audit decision
 * for one request.
 */
module PolicyEngine {
  import opened Wrappers
  import opened JavaLang

  /** The part of `RangerServiceDef` the result reads: its `Long` id, possibly null. */
  datatype ServiceDef = ServiceDef(id: Option<Long>)

  /**
   * The request the result belongs to. The result only holds on to it, so
   * it is represented by an identity; its contents are not part of this model.
   */
  datatype AccessRequest = AccessRequest(identity: nat)

  /** The eight mutable fields of a result, in the order `toString` lists them. */
  datatype Decision = Decision(
    isAccessDetermined: bool, isAllowed: bool, isAuditedDetermined: bool, isAudited: bool,
    policyId: Long, auditPolicyId: Long, evaluatedPoliciesCount: Long, reason: Option<string>)

  /** The decision of a fresh result: nothing determined, no policy. */
  const UNDECIDED: Decision := Decision(false, false, false, false, -1, -1, 0, None)

  /** The fields `setAccessResultFrom` copies, lines 51-57: the access decision and the count. */
  function WithAccessResultFrom(d: Decision, other: Decision): (r: Decision)
    ensures r.isAuditedDetermined == d.isAuditedDetermined && r.isAudited == d.isAudited
    ensures r.auditPolicyId == d.auditPolicyId
    ensures r.isAccessDetermined == other.isAccessDetermined && r.isAllowed == other.isAllowed
    ensures r.policyId == other.policyId && r.evaluatedPoliciesCount == other.evaluatedPoliciesCount
    ensures r.reason == other.reason
  {
    d.(isAccessDetermined := other.isAccessDetermined, isAllowed := other.isAllowed, policyId := other.policyId,
       evaluatedPoliciesCount := other.evaluatedPoliciesCount, reason := other.reason)
  }

  /** The fields `setAuditResultFrom` copies, lines 59-63: the audit decision only. */
  function WithAuditResultFrom(d: Decision, other: Decision): (r: Decision)
    ensures r.isAccessDetermined == d.isAccessDetermined && r.isAllowed == d.isAllowed
    ensures r.policyId == d.policyId && r.evaluatedPoliciesCount == d.evaluatedPoliciesCount
    ensures r.reason == d.reason
    ensures r.isAuditedDetermined == other.isAuditedDetermined && r.isAudited == other.isAudited
    ensures r.auditPolicyId == other.auditPolicyId
  {
    d.(isAuditedDetermined := other.isAuditedDetermined, isAudited := other.isAudited,
       auditPolicyId := other.auditPolicyId)
  }

  /** The two partial copies touch disjoint fields: their order does not matter, and together they copy everything. */
  lemma PartialCopiesPartitionFields(d: Decision, other: Decision)
    ensures WithAuditResultFrom(WithAccessResultFrom(d, other), other)
         == WithAccessResultFrom(WithAuditResultFrom(d, other), other)
    ensures WithAuditResultFrom(WithAccessResultFrom(d, other), other) == other
  {
  }

  /** Copying from the same source twice changes nothing more. */
  lemma PartialCopiesIdempotent(d: Decision, other: Decision)
    ensures WithAccessResultFrom(WithAccessResultFrom(d, other), other) == WithAccessResultFrom(d, other)
    ensures WithAuditResultFrom(WithAuditResultFrom(d, other), other) == WithAuditResultFrom(d, other)
  {
  }

  /** `setIsAllowed`, lines 100-106: a denial also marks the access as determined. */
  function WithIsAllowed(d: Decision, isAllowed: bool): (r: Decision)
    ensures r.isAllowed == isAllowed
    ensures !isAllowed ==> r.isAccessDetermined
    ensures isAllowed ==> r.isAccessDetermined == d.isAccessDetermined
    ensures r.(isAllowed := d.isAllowed, isAccessDetermined := d.isAccessDetermined) == d
  {
    var d' := if !isAllowed then d.(isAccessDetermined := true) else d;
    d'.(isAllowed := isAllowed)
  }

  /** `setIsAudited`, lines 131-134: any audit flag marks the audit as determined. */
  function WithIsAudited(d: Decision, isAudited: bool): (r: Decision)
    ensures r.isAudited == isAudited && r.isAuditedDetermined
    ensures r.(isAudited := d.isAudited, isAuditedDetermined := d.isAuditedDetermined) == d
  {
    d.(isAuditedDetermined := true, isAudited := isAudited)
  }

  /** Once a denial has been recorded, the access stays determined whatever is allowed later. */
  lemma DenialKeepsAccessDetermined(d: Decision, later: bool)
    ensures WithIsAllowed(WithIsAllowed(d, false), later).isAccessDetermined
  {
  }

  /** One field as `toString` writes it: `name={value} `. */
  function Field(name: string, value: string): string {
    name + "={" + value + "} "
  }

  /** What `toString(StringBuilder)` appends, lines 193-207: the eight fields in their fixed order. */
  function Describe(d: Decision): string {
    "RangerAccessResult={"
    + Field("isAccessDetermined", BoolToString(d.isAccessDetermined))
    + Field("isAllowed", BoolToString(d.isAllowed))
    + Field("isAuditedDetermined", BoolToString(d.isAuditedDetermined))
    + Field("isAudited", BoolToString(d.isAudited))
    + Field("policyId", IntToString(d.policyId))
    + Field("auditPolicyId", IntToString(d.auditPolicyId))
    + Field("evaluatedPoliciesCount", IntToString(d.evaluatedPoliciesCount))
    + Field("reason", Str(d.reason))
    + "}"
  }

  lemma ConcatAssociative(a: string, b: string, c: string)
    ensures (a + b) + c == a + (b + c)
  {
  }

  /** `sb.append(name + "={").append(value).append("} ")`. */
  method AppendField(sb: StringBuilder, name: string, value: string)
    modifies sb
    ensures sb.contents == old(sb.contents) + Field(name, value)
  {
    sb.Append(name + "={");
    sb.Append(value);
    sb.Append("} ");
  }

  class RangerAccessResult {
    const serviceName: Option<string>
    const serviceDef: Option<ServiceDef>
    const request: Option<AccessRequest>

    var isAccessDetermined: bool
    var isAllowed: bool
    var isAuditedDetermined: bool
    var isAudited: bool
    var auditPolicyId: Long
    var policyId: Long
    var evaluatedPoliciesCount: Long
    var reason: Option<string>

    /** Lines 37-49. */
    constructor (serviceName: Option<string>, serviceDef: Option<ServiceDef>, request: Option<AccessRequest>)
      ensures this.serviceName == serviceName && this.serviceDef == serviceDef && this.request == request
      ensures State() == UNDECIDED
    {
      this.serviceName := serviceName;
      this.serviceDef := serviceDef;
      this.request := request;
      this.isAccessDetermined := false;
      this.isAllowed := false;
      this.isAuditedDetermined := false;
      this.isAudited := false;
      this.auditPolicyId := -1;
      this.policyId := -1;
      this.evaluatedPoliciesCount := 0;
      this.reason := None;
    }

    /** The mutable fields at one moment. */
    function State(): Decision
      reads this
    {
      Decision(isAccessDetermined, isAllowed, isAuditedDetermined, isAudited, policyId, auditPolicyId,
               evaluatedPoliciesCount, reason)
    }

    method SetAccessResultFrom(other: RangerAccessResult)
      modifies this
      ensures State() == WithAccessResultFrom(old(State()), old(other.State()))
    {
      this.isAccessDetermined := other.isAccessDetermined;
      this.isAllowed := other.isAllowed;
      this.policyId := other.policyId;
      this.evaluatedPoliciesCount := other.evaluatedPoliciesCount;
      this.reason := other.reason;
    }

    method SetAuditResultFrom(other: RangerAccessResult)
      modifies this
      ensures State() == WithAuditResultFrom(old(State()), old(other.State()))
    {
      this.isAuditedDetermined := other.isAuditedDetermined;
      this.isAudited := other.isAudited;
      this.auditPolicyId := other.auditPolicyId;
    }

    /** Line 88. */
    method SetIsAccessDetermined(value: bool)
      modifies this
      ensures State() == old(State()).(isAccessDetermined := value)
    {
      isAccessDetermined := value;
    }

    method SetIsAllowed(isAllowed: bool)
      modifies this
      ensures State() == WithIsAllowed(old(State()), isAllowed)
    {
      if !isAllowed {
        SetIsAccessDetermined(true);
      }
      this.isAllowed := isAllowed;
    }

    /** Lines 111-113. */
    method SetReason(reason: Option<string>)
      modifies this
      ensures State() == old(State()).(reason := reason)
    {
      this.reason := reason;
    }

    /** Line 117. */
    method SetIsAuditedDetermined(value: bool)
      modifies this
      ensures State() == old(State()).(isAuditedDetermined := value)
    {
      isAuditedDetermined := value;
    }

    method SetIsAudited(isAudited: bool)
      modifies this
      ensures State() == WithIsAudited(old(State()), isAudited)
    {
      SetIsAuditedDetermined(true);
      this.isAudited := isAudited;
    }

    /** Lines 161-163. */
    method SetPolicyId(policyId: Long)
      modifies this
      ensures State() == old(State()).(policyId := policyId)
    {
      this.policyId := policyId;
    }

    /** Lines 168-170. */
    method SetAuditPolicyId(policyId: Long)
      modifies this
      ensures State() == old(State()).(auditPolicyId := policyId)
    {
      this.auditPolicyId := policyId;
    }

    /** Line 172: `evaluatedPoliciesCount++` on a Java `long`, which wraps at the top of its range. */
    method IncrementEvaluatedPoliciesCount()
      modifies this
      ensures State() == old(State()).(evaluatedPoliciesCount := WrapLong(old(evaluatedPoliciesCount) + 1))
      ensures old(evaluatedPoliciesCount) < 0x7fff_ffff_ffff_ffff ==>
        evaluatedPoliciesCount == old(evaluatedPoliciesCount) + 1
    {
      evaluatedPoliciesCount := WrapLong(evaluatedPoliciesCount + 1);
    }

    /**
     * Lines 174-182: -1 without a service definition or id, otherwise the
     * id truncated to `int` as `Long.intValue` does.
     */
    function GetServiceType(): (r: Int32)
      ensures serviceDef.None? || serviceDef.value.id.None? ==> r == -1
      ensures serviceDef.Some? && serviceDef.value.id.Some? ==>
        (r - serviceDef.value.id.value) % 0x1_0000_0000 == 0
      ensures serviceDef.Some? && serviceDef.value.id.Some? && INT_MIN <= serviceDef.value.id.value <= INT_MAX ==>
        r == serviceDef.value.id.value
    {
      if serviceDef.Some? && serviceDef.value.id.Some? then IntValue(serviceDef.value.id.value) else -1
    }

    /** Lines 193-208: appends the description to `sb` and returns `sb`. */
    method AppendTo(sb: StringBuilder) returns (r: StringBuilder)
      modifies sb
      ensures r == sb && sb.contents == old(sb.contents) + Describe(State())
    {
      ghost var start := sb.contents;
      var d := State();
      ghost var written := "RangerAccessResult={";
      sb.Append("RangerAccessResult={");
      AppendField(sb, "isAccessDetermined", BoolToString(d.isAccessDetermined));
      ConcatAssociative(start, written, Field("isAccessDetermined", BoolToString(d.isAccessDetermined)));
      written := written + Field("isAccessDetermined", BoolToString(d.isAccessDetermined));
      AppendField(sb, "isAllowed", BoolToString(d.isAllowed));
      ConcatAssociative(start, written, Field("isAllowed", BoolToString(d.isAllowed)));
      written := written + Field("isAllowed", BoolToString(d.isAllowed));
      AppendField(sb, "isAuditedDetermined", BoolToString(d.isAuditedDetermined));
      ConcatAssociative(start, written, Field("isAuditedDetermined", BoolToString(d.isAuditedDetermined)));
      written := written + Field("isAuditedDetermined", BoolToString(d.isAuditedDetermined));
      AppendField(sb, "isAudited", BoolToString(d.isAudited));
      ConcatAssociative(start, written, Field("isAudited", BoolToString(d.isAudited)));
      written := written + Field("isAudited", BoolToString(d.isAudited));
      AppendField(sb, "policyId", IntToString(d.policyId));
      ConcatAssociative(start, written, Field("policyId", IntToString(d.policyId)));
      written := written + Field("policyId", IntToString(d.policyId));
      AppendField(sb, "auditPolicyId", IntToString(d.auditPolicyId));
      ConcatAssociative(start, written, Field("auditPolicyId", IntToString(d.auditPolicyId)));
      written := written + Field("auditPolicyId", IntToString(d.auditPolicyId));
      AppendField(sb, "evaluatedPoliciesCount", IntToString(d.evaluatedPoliciesCount));
      ConcatAssociative(start, written, Field("evaluatedPoliciesCount", IntToString(d.evaluatedPoliciesCount)));
      written := written + Field("evaluatedPoliciesCount", IntToString(d.evaluatedPoliciesCount));
      AppendField(sb, "reason", Str(d.reason));
      ConcatAssociative(start, written, Field("reason", Str(d.reason)));
      written := written + Field("reason", Str(d.reason));
      sb.Append("}");
      ConcatAssociative(start, written, "}");
      return sb;
    }

    /** Lines 185-191. */
    method ToString() returns (s: string)
      ensures s == Describe(State())
    {
      var sb := new StringBuilder();
      var returned := AppendTo(sb);
      s := sb.contents;
    }
  }
}
