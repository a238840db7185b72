/** The transit gateway connect attachment resource and its connect peer lookup
    (internal/service/ec2/transit_gateway_connect.go): the paginated search
    for a connect peer, the peer's state refresh, the decisions Read makes,
    and the gating of default route-table association and propagation in
    Create, Read, Update and Delete. */
module TransitGatewayConnect {
  import opened Common

  // Connect peer states.
  const PeerStatePending := "pending"
  const PeerStateAvailable := "available"
  const PeerStateDeleting := "deleting"
  const PeerStateDeleted := "deleted"

  // Attachment states that make Read drop the resource.
  const AttachmentStateDeleting := "deleting"
  const AttachmentStateDeleted := "deleted"

  const ErrCodeAttachmentNotFound := "InvalidTransitGatewayAttachmentID.NotFound"
  const ErrCodeConnectPeerNotFound := "InvalidTransitGatewayConnectPeerID.NotFound"

  // The pending and target states of the two connect peer waits.
  const PeerCreationPending: set<string> := {PeerStatePending}
  const PeerCreationTarget: set<string> := {PeerStateAvailable}
  const PeerDeletionPending: set<string> := {PeerStateAvailable, PeerStateDeleting}
  const PeerDeletionTarget: set<string> := {PeerStateDeleted}

  // ---------------------------------------------------------------------
  // The paginated connect peer search
  // ---------------------------------------------------------------------

  /** A connect peer; absent strings read as "". */
  datatype ConnectPeer = ConnectPeer(connectPeerId: string, state: string)

  /** One page of a connect peer listing: entries that may be absent, and the
      cursor of the next page ("" on the last page). */
  datatype PeersPage = PeersPage(peers: seq<Option<ConnectPeer>>, nextToken: string)

  /** The reply to one page request: an error, or a possibly absent page. */
  type PageReply = Result<Option<PeersPage>, ApiError>

  /** `j` is the position of the first present peer with ID `id`. */
  ghost predicate IsFirstPeer(peers: seq<Option<ConnectPeer>>, id: string, j: nat)
  {
    && j < |peers|
    && peers[j].Some? && peers[j].value.connectPeerId == id
    && forall i :: 0 <= i < j ==> peers[i].None? || peers[i].value.connectPeerId != id
  }

  /** The position in a page of the first present peer with ID `id`; absent
      entries are skipped. */
  function FirstPeer(peers: seq<Option<ConnectPeer>>, id: string): (r: Option<nat>)
    ensures r.Some? ==> IsFirstPeer(peers, id, r.value)
    ensures r.None? ==> forall i :: 0 <= i < |peers| ==> peers[i].None? || peers[i].value.connectPeerId != id
  {
    if |peers| == 0 then None
    else if peers[0].Some? && peers[0].value.connectPeerId == id then Some(0)
    else
      match FirstPeer(peers[1..], id)
      case None => None
      case Some(j) => Some(j + 1)
  }

  /** What the search does with one reply: stop with a result, or request the
      page behind the given cursor. */
  datatype PageStep = Stop(result: Result<Option<ConnectPeer>, ApiError>) | Next(token: string)

  function StepOf(reply: PageReply, id: string): (step: PageStep)
    // an error is returned at once
    ensures reply.Failure? ==> step == Stop(Failure(reply.error))
    // an absent or empty page ends the search with nothing found
    ensures reply.Success? && (reply.value.None? || |reply.value.value.peers| == 0) ==> step == Stop(Success(None))
    // a matching peer is returned
    ensures reply.Success? && reply.value.Some? && |reply.value.value.peers| > 0 ==>
      var peers := reply.value.value.peers;
      && (FirstPeer(peers, id).Some? ==> step == Stop(Success(peers[FirstPeer(peers, id).value])))
      // otherwise the cursor decides: none left ends the search, else go on
      && (FirstPeer(peers, id).None? ==>
            step == if reply.value.value.nextToken == "" then Stop(Success(None)) else Next(reply.value.value.nextToken))
    ensures step.Next? ==> step.token != ""
  {
    match reply
    case Failure(e) => Stop(Failure(e))
    case Success(None) => Stop(Success(None))
    case Success(Some(page)) =>
      if |page.peers| == 0 then Stop(Success(None))
      else
        match FirstPeer(page.peers, id)
        case Some(j) => Stop(Success(page.peers[j]))
        case None => if page.nextToken == "" then Stop(Success(None)) else Next(page.nextToken)
  }

  /** The replies end the search: the last one stops it. The remote listing
      is assumed to end; the source loops for as long as cursors come back. */
  ghost predicate EndsSearch(replies: seq<PageReply>, id: string)
  {
    |replies| > 0 && StepOf(replies[|replies| - 1], id).Stop?
  }

  /** The result of the search over the replies to successive page requests. */
  function SearchPages(replies: seq<PageReply>, id: string): Result<Option<ConnectPeer>, ApiError>
    requires EndsSearch(replies, id)
  {
    match StepOf(replies[0], id)
    case Stop(result) => result
    case Next(_) => SearchPages(replies[1..], id)
  }

  /** The search returns what the first stopping reply decides. */
  lemma {:induction false} SearchStopsAtFirstStop(replies: seq<PageReply>, id: string, k: nat)
    requires EndsSearch(replies, id)
    requires k < |replies| && StepOf(replies[k], id).Stop?
    requires forall j :: 0 <= j < k ==> StepOf(replies[j], id).Next?
    ensures SearchPages(replies, id) == StepOf(replies[k], id).result
  {
    if k > 0 {
      assert StepOf(replies[0], id).Next?;
      assert EndsSearch(replies[1..], id);
      SearchStopsAtFirstStop(replies[1..], id, k - 1);
    }
  }

  /** A peer the search returns has the requested ID and is present in one
      of the pages. */
  lemma {:induction false} SearchFindsRequestedPeer(replies: seq<PageReply>, id: string)
    requires EndsSearch(replies, id)
    requires SearchPages(replies, id).Success? && SearchPages(replies, id).value.Some?
    ensures SearchPages(replies, id).value.value.connectPeerId == id
    ensures exists k, j ::
      && 0 <= k < |replies| && replies[k].Success? && replies[k].value.Some?
      && 0 <= j < |replies[k].value.value.peers| && replies[k].value.value.peers[j] == SearchPages(replies, id).value
  {
    var p := SearchPages(replies, id).value;
    match StepOf(replies[0], id)
    case Stop(_) =>
      var peers := replies[0].value.value.peers;
      var j := FirstPeer(peers, id).value;
      assert peers[j] == p;
    case Next(_) =>
      assert EndsSearch(replies[1..], id);
      SearchFindsRequestedPeer(replies[1..], id);
      var k, j :| 0 <= k < |replies[1..]| && replies[1..][k].Success? && replies[1..][k].value.Some?
        && 0 <= j < |replies[1..][k].value.value.peers| && replies[1..][k].value.value.peers[j] == p;
      assert replies[k + 1] == replies[1..][k];
  }

  /** No page of the replies lists a peer with ID `id`. */
  ghost predicate NoPageLists(replies: seq<PageReply>, id: string)
  {
    forall k, i ::
      (&& 0 <= k < |replies| && replies[k].Success? && replies[k].value.Some?
       && 0 <= i < |replies[k].value.value.peers| && replies[k].value.value.peers[i].Some?)
      ==> replies[k].value.value.peers[i].value.connectPeerId != id
  }

  /** If no page holds the requested peer, the search finds nothing (it may
      still fail with an error). */
  lemma {:induction false} AbsentPeerNotFound(replies: seq<PageReply>, id: string)
    requires EndsSearch(replies, id)
    requires NoPageLists(replies, id)
    ensures SearchPages(replies, id) != Success(None) ==> SearchPages(replies, id).Failure?
  {
    if SearchPages(replies, id).Success? && SearchPages(replies, id).value.Some? {
      SearchFindsRequestedPeer(replies, id);
    }
  }

  /** DescribeTransitGatewayConnectPeer: request pages, starting without a
      cursor and then with each page's cursor, until a reply stops the
      search. `cursors` are the cursors sent, one per request. */
  method DescribeConnectPeer(replies: seq<PageReply>, id: string)
    returns (r: Result<Option<ConnectPeer>, ApiError>, cursors: seq<Option<string>>)
    requires EndsSearch(replies, id)
    ensures r == SearchPages(replies, id)
    ensures 1 <= |cursors| <= |replies|
    ensures cursors[0] == None
    ensures forall i :: 0 < i < |cursors| ==>
      StepOf(replies[i - 1], id).Next? && cursors[i] == Some(StepOf(replies[i - 1], id).token)
    ensures StepOf(replies[|cursors| - 1], id) == Stop(r)
  {
    var n := 0;
    cursors := [None];
    while true
      invariant 0 <= n < |replies|
      invariant |cursors| == n + 1 && cursors[0] == None
      invariant forall j :: 0 <= j < n ==> StepOf(replies[j], id).Next?
      invariant forall i :: 0 < i < |cursors| ==>
        StepOf(replies[i - 1], id).Next? && cursors[i] == Some(StepOf(replies[i - 1], id).token)
      decreases |replies| - n
    {
      var reply := replies[n];
      if reply.Failure? {
        r := Failure(reply.error);
        break;
      }
      if reply.value.None? || |reply.value.value.peers| == 0 {
        r := Success(None);
        break;
      }
      var page := reply.value.value;
      var found: Option<ConnectPeer> := None;
      var i := 0;
      while i < |page.peers|
        invariant 0 <= i <= |page.peers|
        invariant forall j :: 0 <= j < i ==> page.peers[j].None? || page.peers[j].value.connectPeerId != id
      {
        if page.peers[i].None? {
          i := i + 1;
          continue;
        }
        if page.peers[i].value.connectPeerId == id {
          found := page.peers[i];
          break;
        }
        i := i + 1;
      }
      if found.Some? {
        assert FirstPeer(page.peers, id) == Some(i);
        r := Success(found);
        break;
      }
      if page.nextToken == "" {
        r := Success(None);
        break;
      }
      cursors := cursors + [Some(page.nextToken)];
      n := n + 1;
    }
    SearchStopsAtFirstStop(replies, id, n);
  }

  // ---------------------------------------------------------------------
  // The connect peer state refresh
  // ---------------------------------------------------------------------

  datatype ConnectError =
    | ReadPeerFailed(peerId: string, err: ApiError)
    | CreateFailed(err: ApiError)
    | AttachmentWaitFailed(id: string, reason: string)
    | DescribeAttachmentFailed(attachmentId: string, err: ApiError)
    | DescribeGatewayFailed(gatewayId: string, err: ApiError)
    | MissingOptions(gatewayId: string)
    | AssociationUpdateFailed(id: string, routeTableId: string, err: ApiError)
    | PropagationUpdateFailed(id: string, routeTableId: string, err: ApiError)
    | ReadConnectFailed(err: ApiError)
    | ReadAttachmentFailed(err: ApiError)
    | RouteTableAssociationLookupFailed(id: string, routeTableId: string, err: ApiError)
    | RouteTablePropagationLookupFailed(id: string, routeTableId: string, err: ApiError)
    | DeleteFailed(err: ApiError)
    | DeletionWaitFailed(id: string, reason: string)

  /** The refresh function of the connect peer waits, over the result of the
      peer search: a not-found error or no peer is the state "deleted" with a
      nil value, another error is wrapped and returned, and a peer reports its
      own state. */
  function PeerRefresh(described: Result<Option<ConnectPeer>, ApiError>, peerId: string): (r: Refreshed<ConnectPeer, ConnectError>)
    ensures r.error.Some? <==> described.Failure? && !ErrCodeIs(Some(described.error), ErrCodeConnectPeerNotFound)
    ensures r.error.Some? ==> r == Refreshed(Nil, "", Some(ReadPeerFailed(peerId, described.error)))
    ensures (described.Failure? && ErrCodeIs(Some(described.error), ErrCodeConnectPeerNotFound)) || described == Success(None) ==>
      r == Refreshed(Nil, PeerStateDeleted, None)
    ensures described.Success? && described.value.Some? ==>
      r == Refreshed(Object(described.value.value), described.value.value.state, None)
  {
    match described
    case Failure(e) =>
      if ErrCodeIs(Some(e), ErrCodeConnectPeerNotFound) then Refreshed(Nil, PeerStateDeleted, None)
      else Refreshed(Nil, "", Some(ReadPeerFailed(peerId, e)))
    case Success(None) => Refreshed(Nil, PeerStateDeleted, None)
    case Success(Some(peer)) => Refreshed(Object(peer), peer.state, None)
  }

  /** A peer that no page lists, read without error, refreshes to a nil
      value with the state "deleted" and no error. The poller takes the nil
      value as "not found" without looking at the state: the deletion wait
      (one not-found check allowed) then ends with a not-found error, which
      it turns into success, and the creation wait counts a not-found poll. */
  lemma {:induction false} AbsentPeerRefreshesDeleted(replies: seq<PageReply>, id: string)
    requires EndsSearch(replies, id)
    requires NoPageLists(replies, id)
    requires SearchPages(replies, id).Success?
    ensures PeerRefresh(SearchPages(replies, id), id) == Refreshed(Nil, PeerStateDeleted, None)
  {
    AbsentPeerNotFound(replies, id);
  }

  // ---------------------------------------------------------------------
  // The connect attachment: ownership, Read, Create, Update, Delete
  // ---------------------------------------------------------------------

  datatype Connect = Connect(state: string, transitGatewayId: string, transportAttachmentId: string)
  datatype GatewayOptions = GatewayOptions(associationDefaultRouteTableId: string, propagationDefaultRouteTableId: string)
  datatype TransitGateway = TransitGateway(ownerId: string, options: Option<GatewayOptions>)
  datatype Attachment = Attachment(transitGatewayId: string, resourceOwnerId: string)
  datatype RouteTableAssociation = RouteTableAssociation(routeTableId: string)
  datatype RouteTablePropagation = RouteTablePropagation(routeTableId: string)

  /** The route tables of a gateway can be changed and read only when the
      gateway belongs to the attachment's owner; a gateway shared from another
      account cannot. */
  predicate OwnsRouteTables(gateway: TransitGateway, attachment: Attachment)
  {
    gateway.ownerId == attachment.resourceOwnerId
  }

  /** The resource's recorded state (tags are not modelled). */
  datatype ConnectState = ConnectState(
    id: string,
    transitGatewayId: string,
    transportAttachmentId: string,
    defaultRouteTableAssociation: bool,
    defaultRouteTablePropagation: bool)

  /** What Read decides from the connect attachment lookup alone. */
  datatype ReadStep = Remove | ReadFails(err: ConnectError) | Proceed(connect: Connect)

  function ConnectReadStep(described: Result<Option<Connect>, ApiError>): (step: ReadStep)
    // the resource is dropped exactly when the attachment is not found, is
    // absent, or is being or has been deleted
    ensures step == Remove <==>
      || (described.Failure? && ErrCodeIs(Some(described.error), ErrCodeAttachmentNotFound))
      || described == Success(None)
      || (described.Success? && described.value.Some? &&
          described.value.value.state in {AttachmentStateDeleting, AttachmentStateDeleted})
    ensures step.ReadFails? <==> described.Failure? && !ErrCodeIs(Some(described.error), ErrCodeAttachmentNotFound)
    ensures step.ReadFails? ==> step.err == ReadConnectFailed(described.error)
    ensures step.Proceed? ==> described == Success(Some(step.connect))
  {
    match described
    case Failure(e) =>
      if ErrCodeIs(Some(e), ErrCodeAttachmentNotFound) then Remove else ReadFails(ReadConnectFailed(e))
    case Success(None) => Remove
    case Success(Some(c)) =>
      if c.state == AttachmentStateDeleting || c.state == AttachmentStateDeleted then Remove else Proceed(c)
  }

  /** The replies Read receives, in the order it asks: the connect
      attachment, its transit gateway, the attachment, and the default
      route-table association and propagation. */
  datatype ReadReplies = ReadReplies(
    connect: Result<Option<Connect>, ApiError>,
    gateway: Result<TransitGateway, ApiError>,
    attachment: Result<Option<Attachment>, ApiError>,
    association: Result<Option<RouteTableAssociation>, ApiError>,
    propagation: Result<Option<RouteTablePropagation>, ApiError>)

  /** What Read leaves: the new state, the error it returns, and whether it
      looked up the route tables. */
  datatype ReadOutcome = ReadOutcome(state: ConnectState, err: Option<ConnectError>, routeTablesRead: bool)

  function RouteTableId(gateway: TransitGateway, association: bool): string
  {
    if gateway.options.None? then ""
    else if association then gateway.options.value.associationDefaultRouteTableId
    else gateway.options.value.propagationDefaultRouteTableId
  }

  /** Read: look the connect attachment up, drop the resource if it is gone,
      then describe its gateway and the attachment; the default route tables
      are read only for an owned gateway, and a shared gateway's two settings
      read as true. */
  function ReadResult(s: ConnectState, replies: ReadReplies): (r: ReadOutcome)
    // a resource the attachment lookup says is gone is removed, with no error
    ensures ConnectReadStep(replies.connect) == Remove ==> r == ReadOutcome(s.(id := ""), None, false)
    ensures ConnectReadStep(replies.connect).ReadFails? ==>
      r == ReadOutcome(s, Some(ConnectReadStep(replies.connect).err), false)
    // an error leaves the state alone
    ensures r.err.Some? ==> r.state == s
    ensures r.err.None? ==> r.state.id == s.id || r.state.id == ""
    ensures ConnectReadStep(replies.connect).Proceed? ==>
      var c := ConnectReadStep(replies.connect).connect;
      var kept := s.(transitGatewayId := c.transitGatewayId, transportAttachmentId := c.transportAttachmentId);
      // the gateway and attachment lookup errors are returned
      && (replies.gateway.Failure? ==>
            r == ReadOutcome(s, Some(DescribeGatewayFailed(c.transitGatewayId, replies.gateway.error)), false))
      && (replies.gateway.Success? && replies.attachment.Failure? ==>
            r == ReadOutcome(s, Some(ReadAttachmentFailed(replies.attachment.error)), false))
      // an absent attachment drops the resource
      && (replies.gateway.Success? && replies.attachment == Success(None) ==>
            r == ReadOutcome(s.(id := ""), None, false))
      && (replies.gateway.Success? && replies.attachment.Success? && replies.attachment.value.Some? ==>
            var g := replies.gateway.value;
            var a := replies.attachment.value.value;
            // the route tables are read exactly for an owned gateway
            && (r.routeTablesRead <==> OwnsRouteTables(g, a))
            // a shared gateway keeps the resource with both settings true
            && (!OwnsRouteTables(g, a) ==>
                  r.state == kept.(defaultRouteTableAssociation := true, defaultRouteTablePropagation := true) && r.err.None?)
            // an owned gateway returns the first lookup error of its default route tables
            && (OwnsRouteTables(g, a) && replies.association.Failure? ==>
                  r.state == s && r.err == Some(RouteTableAssociationLookupFailed(s.id, RouteTableId(g, true), replies.association.error)))
            && (OwnsRouteTables(g, a) && replies.association.Success? && replies.propagation.Failure? ==>
                  r.state == s && r.err == Some(RouteTablePropagationLookupFailed(s.id, RouteTableId(g, false), replies.propagation.error)))
            // and otherwise keeps the resource, reporting whether each exists
            && (OwnsRouteTables(g, a) && replies.association.Success? && replies.propagation.Success? ==>
                  && r.err.None?
                  && r.state == kept.(defaultRouteTableAssociation := replies.association.value.Some?,
                                      defaultRouteTablePropagation := replies.propagation.value.Some?)))
  {
    match ConnectReadStep(replies.connect)
    case Remove => ReadOutcome(s.(id := ""), None, false)
    case ReadFails(err) => ReadOutcome(s, Some(err), false)
    case Proceed(c) =>
      if replies.gateway.Failure? then
        ReadOutcome(s, Some(DescribeGatewayFailed(c.transitGatewayId, replies.gateway.error)), false)
      else if replies.attachment.Failure? then
        ReadOutcome(s, Some(ReadAttachmentFailed(replies.attachment.error)), false)
      else if replies.attachment.value.None? then
        ReadOutcome(s.(id := ""), None, false)
      else
        var gateway := replies.gateway.value;
        var kept := s.(transitGatewayId := c.transitGatewayId, transportAttachmentId := c.transportAttachmentId);
        if OwnsRouteTables(gateway, replies.attachment.value.value) then
          if replies.association.Failure? then
            ReadOutcome(s, Some(RouteTableAssociationLookupFailed(s.id, RouteTableId(gateway, true), replies.association.error)), true)
          else if replies.propagation.Failure? then
            ReadOutcome(s, Some(RouteTablePropagationLookupFailed(s.id, RouteTableId(gateway, false), replies.propagation.error)), true)
          else
            ReadOutcome(kept.(defaultRouteTableAssociation := replies.association.value.Some?,
                              defaultRouteTablePropagation := replies.propagation.value.Some?), None, true)
        else
          ReadOutcome(kept.(defaultRouteTableAssociation := true, defaultRouteTablePropagation := true), None, false)
  }

  /** A change to one of the gateway's default route tables for the
      attachment: enable or disable its association or propagation. */
  datatype RouteTableCall =
    | SetAssociation(routeTableId: string, attachmentId: string, enable: bool)
    | SetPropagation(routeTableId: string, attachmentId: string, enable: bool)

  /** The replies to the two route-table updates, in order. */
  datatype UpdateReplies = UpdateReplies(association: Option<ApiError>, propagation: Option<ApiError>)

  /** The route-table changes a Create or Update makes and the error that
      stops it: the association first, then the propagation, each only when
      wanted; an update error stops before the next change. */
  datatype Changes = Changes(calls: seq<RouteTableCall>, err: Option<ConnectError>)

  /** The association change for the attachment `id`: to the gateway's
      default association route table, with the configured flag. */
  function AssociationCall(options: GatewayOptions, id: string, s: ConnectState): RouteTableCall
  {
    SetAssociation(options.associationDefaultRouteTableId, id, s.defaultRouteTableAssociation)
  }

  /** The propagation change: to the default propagation route table. */
  function PropagationCall(options: GatewayOptions, id: string, s: ConnectState): RouteTableCall
  {
    SetPropagation(options.propagationDefaultRouteTableId, id, s.defaultRouteTablePropagation)
  }

  /** The changes wanted, in the order they are made. */
  function WantedCalls(options: GatewayOptions, id: string, s: ConnectState, association: bool, propagation: bool): seq<RouteTableCall>
  {
    (if association then [AssociationCall(options, id, s)] else []) +
    (if propagation then [PropagationCall(options, id, s)] else [])
  }

  function ApplyRouteTableChanges(id: string, options: GatewayOptions, s: ConnectState,
                                  association: bool, propagation: bool, updates: UpdateReplies): (r: Changes)
    ensures forall c :: c in r.calls ==> c.attachmentId == id
    // a failed association update stops before the propagation change
    ensures association && updates.association.Some? ==>
      r == Changes([AssociationCall(options, id, s)],
                   Some(AssociationUpdateFailed(id, options.associationDefaultRouteTableId, updates.association.value)))
    // otherwise every wanted change is made, the association first
    ensures !(association && updates.association.Some?) ==> r.calls == WantedCalls(options, id, s, association, propagation)
    // no error exactly when no wanted update failed
    ensures r.err.None? <==> !(association && updates.association.Some?) && !(propagation && updates.propagation.Some?)
    ensures !(association && updates.association.Some?) && propagation && updates.propagation.Some? ==>
      r.err == Some(PropagationUpdateFailed(id, options.propagationDefaultRouteTableId, updates.propagation.value))
  {
    var assoc := AssociationCall(options, id, s);
    var prop := PropagationCall(options, id, s);
    if association && updates.association.Some? then
      Changes([assoc], Some(AssociationUpdateFailed(id, options.associationDefaultRouteTableId, updates.association.value)))
    else
      var done := if association then [assoc] else [];
      if propagation && updates.propagation.Some? then
        Changes(done + [prop], Some(PropagationUpdateFailed(id, options.propagationDefaultRouteTableId, updates.propagation.value)))
      else
        Changes(done + (if propagation then [prop] else []), None)
  }

  /** What Create leaves: the new state, the route-table changes made, and the
      error it returns. */
  datatype CreateOutcome = CreateOutcome(state: ConnectState, calls: seq<RouteTableCall>, err: Option<ConnectError>)

  /** Create: create the attachment, record its ID, wait for it, look up the
      transport attachment and its gateway, apply the configured default
      route-table settings if the gateway is owned, then Read. */
  function CreateResult(s: ConnectState, created: Result<string, ApiError>, waited: WaitOutcome,
                        transport: Result<Attachment, ApiError>, gateway: Result<TransitGateway, ApiError>,
                        updates: UpdateReplies, replies: ReadReplies): (r: CreateOutcome)
    // no route table of a shared gateway is touched
    ensures r.calls != [] ==>
      transport.Success? && gateway.Success? && OwnsRouteTables(gateway.value, transport.value)
    ensures created.Failure? ==> r == CreateOutcome(s, [], Some(CreateFailed(created.error)))
    // once created, a failure before Read keeps the new ID recorded
    ensures created.Success? && waited.WaitFailed? ==>
      r == CreateOutcome(s.(id := created.value), [], Some(AttachmentWaitFailed(created.value, waited.reason)))
    ensures created.Success? && waited.WaitSucceeded? && transport.Failure? ==>
      r == CreateOutcome(s.(id := created.value), [], Some(DescribeAttachmentFailed(s.transportAttachmentId, transport.error)))
    ensures created.Success? && waited.WaitSucceeded? && transport.Success? && gateway.Failure? ==>
      r == CreateOutcome(s.(id := created.value), [], Some(DescribeGatewayFailed(transport.value.transitGatewayId, gateway.error)))
    ensures created.Success? && waited.WaitSucceeded? && transport.Success? && gateway.Success? && gateway.value.options.None? ==>
      r == CreateOutcome(s.(id := created.value), [], Some(MissingOptions(transport.value.transitGatewayId)))
    ensures (&& created.Success? && waited.WaitSucceeded? && transport.Success? && gateway.Success?
             && gateway.value.options.Some?) ==>
      var s1 := s.(id := created.value);
      var options := gateway.value.options.value;
      var changes := ApplyRouteTableChanges(created.value, options, s1, true, true, updates);
      // on an owned gateway both configured settings are applied, the
      // association first; a failed update is returned with the new ID kept
      && (OwnsRouteTables(gateway.value, transport.value) ==> r.calls == changes.calls)
      && (OwnsRouteTables(gateway.value, transport.value) && changes.err.Some? ==>
            r.state == s1 && r.err == changes.err)
      && (OwnsRouteTables(gateway.value, transport.value) && changes.err.None? ==>
            r.calls == [AssociationCall(options, created.value, s1), PropagationCall(options, created.value, s1)])
      // a shared gateway changes nothing
      && (!OwnsRouteTables(gateway.value, transport.value) ==> r.calls == [])
      // and when no step failed, Create ends as a Read of the new ID
      && ((!OwnsRouteTables(gateway.value, transport.value) || changes.err.None?) ==>
            r.state == ReadResult(s1, replies).state && r.err == ReadResult(s1, replies).err)
  {
    if created.Failure? then CreateOutcome(s, [], Some(CreateFailed(created.error)))
    else
      var s1 := s.(id := created.value);
      if waited.WaitFailed? then CreateOutcome(s1, [], Some(AttachmentWaitFailed(s1.id, waited.reason)))
      else if transport.Failure? then
        CreateOutcome(s1, [], Some(DescribeAttachmentFailed(s.transportAttachmentId, transport.error)))
      else if gateway.Failure? then
        CreateOutcome(s1, [], Some(DescribeGatewayFailed(transport.value.transitGatewayId, gateway.error)))
      else if gateway.value.options.None? then
        CreateOutcome(s1, [], Some(MissingOptions(transport.value.transitGatewayId)))
      else if OwnsRouteTables(gateway.value, transport.value) then
        var changes := ApplyRouteTableChanges(s1.id, gateway.value.options.value, s1, true, true, updates);
        if changes.err.Some? then CreateOutcome(s1, changes.calls, changes.err)
        else
          var read := ReadResult(s1, replies);
          CreateOutcome(read.state, changes.calls, read.err)
      else
        var read := ReadResult(s1, replies);
        CreateOutcome(read.state, [], read.err)
  }

  /** Update: when neither default route-table setting changed nothing is
      looked up; otherwise the gateway is described and each setting that
      changed, and only that one, is applied. Ownership is not consulted. */
  function UpdateResult(s: ConnectState, associationChanged: bool, propagationChanged: bool,
                        gateway: Result<TransitGateway, ApiError>, updates: UpdateReplies): (r: Changes)
    ensures !associationChanged && !propagationChanged ==> r == Changes([], None)
    ensures forall c :: c in r.calls ==> c.attachmentId == s.id
    ensures (associationChanged || propagationChanged) && gateway.Failure? ==>
      r == Changes([], Some(DescribeGatewayFailed(s.transitGatewayId, gateway.error)))
    ensures (associationChanged || propagationChanged) && gateway.Success? && gateway.value.options.None? ==>
      r == Changes([], Some(MissingOptions(s.transitGatewayId)))
    ensures (associationChanged || propagationChanged) && gateway.Success? && gateway.value.options.Some? ==>
      var options := gateway.value.options.value;
      // a failed association update stops before the propagation change
      && (associationChanged && updates.association.Some? ==>
            r == Changes([AssociationCall(options, s.id, s)],
                         Some(AssociationUpdateFailed(s.id, options.associationDefaultRouteTableId, updates.association.value))))
      // otherwise each changed setting, and only that, goes to its default
      // route table, the association first
      && (!(associationChanged && updates.association.Some?) ==>
            r.calls == WantedCalls(options, s.id, s, associationChanged, propagationChanged))
      && (r.err.None? <==>
            !(associationChanged && updates.association.Some?) && !(propagationChanged && updates.propagation.Some?))
      && (!(associationChanged && updates.association.Some?) && propagationChanged && updates.propagation.Some? ==>
            r.err == Some(PropagationUpdateFailed(s.id, options.propagationDefaultRouteTableId, updates.propagation.value)))
  {
    if !associationChanged && !propagationChanged then Changes([], None)
    else if gateway.Failure? then Changes([], Some(DescribeGatewayFailed(s.transitGatewayId, gateway.error)))
    else if gateway.value.options.None? then Changes([], Some(MissingOptions(s.transitGatewayId)))
    else ApplyRouteTableChanges(s.id, gateway.value.options.value, s, associationChanged, propagationChanged, updates)
  }

  /** What Delete does: whether it waited for the deletion, and its error. */
  datatype DeleteOutcome = DeleteOutcome(waited: bool, err: Option<ConnectError>)

  /** Delete: a not-found reply is success without a wait, another error is
      returned, and a successful delete is followed by the deletion wait. */
  function DeleteResult(id: string, deleted: Option<ApiError>, waited: WaitOutcome): (r: DeleteOutcome)
    ensures ErrCodeIs(deleted, ErrCodeAttachmentNotFound) ==> r == DeleteOutcome(false, None)
    ensures deleted.Some? && !ErrCodeIs(deleted, ErrCodeAttachmentNotFound) ==>
      r == DeleteOutcome(false, Some(DeleteFailed(deleted.value)))
    ensures r.waited <==> deleted.None?
    ensures r.waited ==> (r.err.None? <==> waited.WaitSucceeded?)
    ensures r.waited && waited.WaitFailed? ==> r.err == Some(DeletionWaitFailed(id, waited.reason))
  {
    if ErrCodeIs(deleted, ErrCodeAttachmentNotFound) then DeleteOutcome(false, None)
    else if deleted.Some? then DeleteOutcome(false, Some(DeleteFailed(deleted.value)))
    else
      match waited
      case WaitSucceeded => DeleteOutcome(true, None)
      case WaitFailed(reason) => DeleteOutcome(true, Some(DeletionWaitFailed(id, reason)))
  }
}
