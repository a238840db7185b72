/** The VPC IPv4 CIDR block association resource
    (internal/service/ec2/vpc_ipv4_cidr_block_association.go): the state
    refresh used while waiting for an association or disassociation, the
    lookup in Read, the CustomizeDiff rule for `cidr_block`, the request
    built by Create, and the not-found handling of Delete. */
module VpcIpv4CidrBlockAssociation {
  import opened Common

  // Association states reported by the API, and the synthetic "deleted"
  // state the refresh reports when the association is gone.
  const StateAssociating := "associating"
  const StateAssociated := "associated"
  const StateDisassociating := "disassociating"
  const StateDisassociated := "disassociated"
  const StateDeleted := "deleted"

  const ErrCodeVpcIdNotFound := "InvalidVpcID.NotFound"

  // The pending and target states of the two waits.
  const CreatePending: set<string> := {StateAssociating}
  const CreateTarget: set<string> := {StateAssociated}
  const DeletePending: set<string> := {StateDisassociating}
  const DeleteTarget: set<string> := {StateDisassociated, StateDeleted}

  /** An entry of a VPC's CIDR block association set. Absent strings are
      read as "", as `aws.StringValue` does. */
  datatype CidrBlockAssociation = CidrBlockAssociation(associationId: string, cidrBlock: string, state: string)

  datatype Vpc = Vpc(vpcId: string, cidrBlockAssociationSet: seq<CidrBlockAssociation>)

  /** The reply of a VPC search by association ID: a possibly absent output
      holding a list of possibly absent VPCs. */
  datatype DescribeVpcsOutput = DescribeVpcsOutput(vpcs: seq<Option<Vpc>>)

  datatype AssociationError =
    | AssociateFailed(err: ApiError)
    | AssociationWaitFailed(id: string, reason: string)
    | DescribeVpcsFailed(err: ApiError)
    | DisassociateFailed(err: ApiError)
    | DisassociationWaitFailed(id: string, reason: string)

  // ---------------------------------------------------------------------
  // Lookup of an association by ID
  // ---------------------------------------------------------------------

  /** `i` is the position of the first association with ID `id`. */
  ghost predicate IsFirstWithId(associations: seq<CidrBlockAssociation>, id: string, i: nat)
  {
    && i < |associations|
    && associations[i].associationId == id
    && forall j :: 0 <= j < i ==> associations[j].associationId != id
  }

  /** The position of the first association whose ID is `id`, if any. */
  function FirstAssociation(associations: seq<CidrBlockAssociation>, id: string): (r: Option<nat>)
    ensures r.Some? ==> IsFirstWithId(associations, id, r.value)
    ensures r.None? ==> forall j :: 0 <= j < |associations| ==> associations[j].associationId != id
  {
    if |associations| == 0 then None
    else if associations[0].associationId == id then Some(0)
    else
      match FirstAssociation(associations[1..], id)
      case None => None
      case Some(i) => Some(i + 1)
  }

  /** The refresh function of both waits: look the association up in the
      VPC's set and report its state. A failed describe is returned with an
      empty state; a missing VPC or association is the synthetic state
      "deleted" together with a non-nil placeholder value. */
  function StateRefresh(described: Result<Option<Vpc>, ApiError>, associationId: string): (r: Refreshed<CidrBlockAssociation, ApiError>)
    ensures described.Failure? ==> r == Refreshed(Nil, "", Some(described.error))
    ensures described.Success? ==> r.error.None? && !r.value.Nil?
    // the first association with that ID, and its own state
    ensures r.value.Object? ==>
      && described.Success? && described.value.Some?
      && r.state == r.value.obj.state
      && exists i: nat :: IsFirstWithId(described.value.value.cidrBlockAssociationSet, associationId, i)
           && described.value.value.cidrBlockAssociationSet[i] == r.value.obj
    // "deleted" exactly when there is no VPC or no association with that ID
    ensures described.Success? ==>
      (r.value.EmptyString? <==>
        described.value.None? ||
        forall a :: a in described.value.value.cidrBlockAssociationSet ==> a.associationId != associationId)
    ensures r.value.EmptyString? ==> r.state == StateDeleted
  {
    match described
    case Failure(e) => Refreshed(Nil, "", Some(e))
    case Success(None) => Refreshed(EmptyString, StateDeleted, None)
    case Success(Some(vpc)) =>
      match FirstAssociation(vpc.cidrBlockAssociationSet, associationId)
      case Some(i) =>
        var a := vpc.cidrBlockAssociationSet[i];
        Refreshed(Object(a), a.state, None)
      case None => Refreshed(EmptyString, StateDeleted, None)
  }

  /** A gone association ends the disassociation wait successfully, and ends
      the association wait with a state outside its pending and target sets. */
  lemma GoneAssociationOutcome(described: Result<Option<Vpc>, ApiError>, associationId: string)
    requires described.Success?
    requires described.value.None? ||
      forall a :: a in described.value.value.cidrBlockAssociationSet ==> a.associationId != associationId
    ensures StateRefresh(described, associationId).state in DeleteTarget
    ensures StateRefresh(described, associationId).state !in CreatePending + CreateTarget
  {
  }

  // ---------------------------------------------------------------------
  // CustomizeDiff
  // ---------------------------------------------------------------------

  datatype DiffAction = NoAction | ClearCidrBlock | ForceNewCidrBlock

  /** The plan-time rule for `cidr_block` on an existing association: a block
      derived from an IPAM pool (a netmask length is set) may change without
      effect, an explicit block forces replacement. */
  function CustomizeDiff(id: string, cidrBlockChanged: bool, ipv4NetmaskLength: int): (a: DiffAction)
    ensures a != NoAction <==> id != "" && cidrBlockChanged
    ensures a == ClearCidrBlock <==> id != "" && cidrBlockChanged && ipv4NetmaskLength != 0
    ensures a == ForceNewCidrBlock <==> id != "" && cidrBlockChanged && ipv4NetmaskLength == 0
  {
    if id != "" && cidrBlockChanged then
      if ipv4NetmaskLength != 0 then ClearCidrBlock else ForceNewCidrBlock
    else NoAction
  }

  // ---------------------------------------------------------------------
  // The Create request
  // ---------------------------------------------------------------------

  /** The resource's configuration. An optional attribute that is not set
      reads as its zero value ("" or 0), as `d.Get` returns it. */
  datatype AssociationConfig = AssociationConfig(vpcId: string, cidrBlock: string, ipv4IpamPoolId: string, ipv4NetmaskLength: int)

  datatype AssociateVpcCidrBlockInput = AssociateVpcCidrBlockInput(
    vpcId: string, cidrBlock: Option<string>, ipv4IpamPoolId: Option<string>, ipv4NetmaskLength: Option<int>)

  function StringOrZero(o: Option<string>): string
  {
    if o.Some? then o.value else ""
  }

  function IntOrZero(o: Option<int>): int
  {
    if o.Some? then o.value else 0
  }

  /** The configuration a request carries, reading an omitted field as its
      zero value. */
  function RequestConfig(req: AssociateVpcCidrBlockInput): AssociationConfig
  {
    AssociationConfig(req.vpcId, StringOrZero(req.cidrBlock), StringOrZero(req.ipv4IpamPoolId), IntOrZero(req.ipv4NetmaskLength))
  }

  /** Build the association request: the VPC ID always, each optional field
      only when it is configured (`d.GetOk` reports a non-zero value). */
  method BuildAssociateRequest(config: AssociationConfig) returns (req: AssociateVpcCidrBlockInput)
    ensures req.vpcId == config.vpcId
    ensures req.cidrBlock.Some? <==> config.cidrBlock != ""
    ensures req.ipv4IpamPoolId.Some? <==> config.ipv4IpamPoolId != ""
    ensures req.ipv4NetmaskLength.Some? <==> config.ipv4NetmaskLength != 0
    // nothing is lost: the request carries the configuration exactly
    ensures RequestConfig(req) == config
  {
    req := AssociateVpcCidrBlockInput(config.vpcId, None, None, None);
    if config.cidrBlock != "" {
      req := req.(cidrBlock := Some(config.cidrBlock));
    }
    if config.ipv4IpamPoolId != "" {
      req := req.(ipv4IpamPoolId := Some(config.ipv4IpamPoolId));
    }
    if config.ipv4NetmaskLength != 0 {
      req := req.(ipv4NetmaskLength := Some(config.ipv4NetmaskLength));
    }
  }

  // ---------------------------------------------------------------------
  // Read
  // ---------------------------------------------------------------------

  /** The resource's recorded state: its ID and its four attributes. */
  datatype AssociationState = AssociationState(id: string, config: AssociationConfig)

  /** The VPC Read inspects: the first of the output, when there is one. */
  function DescribedVpc(output: Option<DescribeVpcsOutput>): (r: Option<Vpc>)
    ensures r.None? <==> output.None? || |output.value.vpcs| == 0 || output.value.vpcs[0].None?
    ensures r.Some? ==> output.value.vpcs[0] == r
  {
    if output.None? || |output.value.vpcs| == 0 then None else output.value.vpcs[0]
  }

  /** The effect of Read on the recorded state, and the error it returns. */
  function ReadResult(s: AssociationState, described: Result<Option<DescribeVpcsOutput>, ApiError>): (r: (AssociationState, Option<AssociationError>))
    // an API error is returned and the state is left alone
    ensures described.Failure? ==> r == (s, Some(DescribeVpcsFailed(described.error)))
    ensures described.Success? ==> r.1.None?
    // the IPAM settings are never touched, and the ID is kept or cleared
    ensures r.0.config.ipv4IpamPoolId == s.config.ipv4IpamPoolId
    ensures r.0.config.ipv4NetmaskLength == s.config.ipv4NetmaskLength
    ensures r.0.id == s.id || r.0.id == ""
    // without a VPC, or without the association in it, the ID is cleared
    ensures described.Success? && DescribedVpc(described.value).None? ==>
      r.0 == s.(id := "")
    ensures described.Success? && DescribedVpc(described.value).Some? ==>
      var associations := DescribedVpc(described.value).value.cidrBlockAssociationSet;
      && ((forall a :: a in associations ==> a.associationId != s.id) ==> r.0 == s.(id := ""))
      // otherwise the block and VPC ID are copied from the first association
      && (forall i: nat :: IsFirstWithId(associations, s.id, i) ==>
            && r.0.id == s.id
            && r.0.config.cidrBlock == associations[i].cidrBlock
            && r.0.config.vpcId == DescribedVpc(described.value).value.vpcId)
  {
    match described
    case Failure(e) => (s, Some(DescribeVpcsFailed(e)))
    case Success(output) =>
      match DescribedVpc(output)
      case None => (s.(id := ""), None)
      case Some(vpc) =>
        match FirstAssociation(vpc.cidrBlockAssociationSet, s.id)
        case None => (s.(id := ""), None)
        case Some(i) =>
          (s.(config := s.config.(cidrBlock := vpc.cidrBlockAssociationSet[i].cidrBlock, vpcId := vpc.vpcId)), None)
  }

  // ---------------------------------------------------------------------
  // Delete
  // ---------------------------------------------------------------------

  /** What Delete does: whether it waited for the disassociation, and the
      error it returns. */
  datatype DeleteOutcome = DeleteOutcome(waited: bool, err: Option<AssociationError>)

  /** Delete: an `InvalidVpcID.NotFound` reply is success without a wait, any
      other error is returned, and a successful disassociation is followed by
      the wait whose failure is returned. */
  function DeleteResult(id: string, disassociated: Option<ApiError>, waited: WaitOutcome): (r: DeleteOutcome)
    ensures ErrCodeIs(disassociated, ErrCodeVpcIdNotFound) ==> r == DeleteOutcome(false, None)
    ensures disassociated.Some? && !ErrCodeIs(disassociated, ErrCodeVpcIdNotFound) ==>
      r == DeleteOutcome(false, Some(DisassociateFailed(disassociated.value)))
    ensures r.waited <==> disassociated.None?
    ensures r.waited ==> (r.err.None? <==> waited.WaitSucceeded?)
    ensures r.waited && waited.WaitFailed? ==> r.err == Some(DisassociationWaitFailed(id, waited.reason))
  {
    if disassociated.Some? then
      if ErrCodeIs(disassociated, ErrCodeVpcIdNotFound) then DeleteOutcome(false, None)
      else DeleteOutcome(false, Some(DisassociateFailed(disassociated.value)))
    else
      match waited
      case WaitSucceeded => DeleteOutcome(true, None)
      case WaitFailed(reason) => DeleteOutcome(true, Some(DisassociationWaitFailed(id, reason)))
  }

  // ---------------------------------------------------------------------
  // The resource data that Create and Read update in place
  // ---------------------------------------------------------------------

  class AssociationData {
    var id: string
    var vpcId: string
    var cidrBlock: string
    var ipv4IpamPoolId: string
    var ipv4NetmaskLength: int

    function State(): AssociationState
      reads this
    {
      AssociationState(id, AssociationConfig(vpcId, cidrBlock, ipv4IpamPoolId, ipv4NetmaskLength))
    }

    /** Resource data for a configuration not yet created. */
    constructor (config: AssociationConfig)
      ensures State() == AssociationState("", config)
    {
      id := "";
      vpcId := config.vpcId;
      cidrBlock := config.cidrBlock;
      ipv4IpamPoolId := config.ipv4IpamPoolId;
      ipv4NetmaskLength := config.ipv4NetmaskLength;
    }

    /** Read: search the described VPC's associations for the recorded ID;
        clear the ID when it is not there, copy the block and VPC ID when it
        is. */
    method Read(described: Result<Option<DescribeVpcsOutput>, ApiError>) returns (err: Option<AssociationError>)
      modifies this
      ensures (State(), err) == ReadResult(old(State()), described)
    {
      if described.Failure? {
        return Some(DescribeVpcsFailed(described.error));
      }
      var output := described.value;
      if output.None? || |output.value.vpcs| == 0 || output.value.vpcs[0].None? {
        id := "";
        return None;
      }
      var vpc := output.value.vpcs[0].value;
      var associations := vpc.cidrBlockAssociationSet;
      var found: Option<nat> := None;
      var i := 0;
      while i < |associations|
        invariant 0 <= i <= |associations|
        invariant forall j :: 0 <= j < i ==> associations[j].associationId != id
      {
        if associations[i].associationId == id {
          found := Some(i);
          break;
        }
        i := i + 1;
      }
      assert found == FirstAssociation(associations, id);
      if found.None? {
        id := "";
        return None;
      }
      cidrBlock := associations[found.value].cidrBlock;
      vpcId := vpc.vpcId;
      return None;
    }

    /** Create: send the association request, record the new association's
        ID, wait for it to be associated, then Read. A failed request leaves
        the data alone; a failed wait leaves the new ID recorded. */
    method Create(associated: Result<string, ApiError>, waited: WaitOutcome, described: Result<Option<DescribeVpcsOutput>, ApiError>)
      returns (req: AssociateVpcCidrBlockInput, err: Option<AssociationError>)
      modifies this
      ensures RequestConfig(req) == old(State()).config
      ensures associated.Failure? ==> State() == old(State()) && err == Some(AssociateFailed(associated.error))
      ensures associated.Success? && waited.WaitFailed? ==>
        State() == old(State()).(id := associated.value) && err == Some(AssociationWaitFailed(associated.value, waited.reason))
      ensures associated.Success? && waited.WaitSucceeded? ==>
        (State(), err) == ReadResult(old(State()).(id := associated.value), described)
    {
      req := BuildAssociateRequest(State().config);
      if associated.Failure? {
        return req, Some(AssociateFailed(associated.error));
      }
      id := associated.value;
      if waited.WaitFailed? {
        return req, Some(AssociationWaitFailed(id, waited.reason));
      }
      err := Read(described);
    }
  }
}
