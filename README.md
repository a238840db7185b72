# Decision procedures of three cloud-provider resources, in Dafny

This project models the local logic of three pieces of a cloud-infrastructure
provider plugin. Everything they send to or receive from the cloud API is an
input value here: an optional VPC holding its CIDR block associations, a
sequence of result pages, a map of queue attributes.

- **Queue attribute propagation** (`sqs_wait.dfy`, module `SqsWait`). This is
  the matcher that decides whether the attributes read back from a message
  queue satisfy the expected ones. Around it is the wait, which repeats the
  read and the match until the retry's deadline, and checks once more when
  the retry reports a bare timeout.
- **VPC IPv4 CIDR block association** (`vpc_ipv4_cidr_block_association.dfy`,
  module `VpcIpv4CidrBlockAssociation`). It covers:
  - the state refresh used by the association and disassociation waits;
  - the lookup in Read, which clears the ID or copies fields;
  - the plan-time rule for `cidr_block`;
  - the request that Create builds;
  - Delete's handling of "not found".

  Create and Read update the resource data in place, so they are methods of
  the class `AssociationData`.
- **Transit gateway connect** (`transit_gateway_connect.dfy`, module
  `TransitGatewayConnect`). It covers:
  - the paginated search for a connect peer, as a method looping over the
    replies to successive page requests;
  - the peer's state refresh;
  - Read's decisions to drop the resource;
  - the ownership test that gates the default route-table association and
    propagation in Create and Read;
  - the change test that gates them in Update;
  - Delete's handling of "not found".

`common.dfy` (module `Common`) holds the shared values:
- the API error (an AWS error with a code, or another error);
- the test that an error carries a given code;
- the triple that a state-refresh function returns. Its value keeps a nil
  result apart from the empty-string placeholder, because the framework's
  poller treats nil as "not found".

The queue match loops over a Go map, whose order is unspecified. So
`MatchAttributes` picks each next key arbitrarily. Its verdict is fixed: pass
exactly when every expected key passes. When it fails, it returns the error of
some failing key.

In Update, the code applies a changed route-table setting without checking
who owns the gateway, although Create and Read do check. `UpdateResult`
models this as written.

## Model

| member | source | states |
|---|---|---|
| `SqsWait.CheckAttribute` | internal/service/sqs/wait.go:34-69 | A missing key passes iff the expected value is "" or (for `KmsDataKeyReusePeriodSeconds`) the default period's decimal text; otherwise it fails with "not available". `Policy` passes iff the policy comparison says equivalent, and a comparison error is returned. `RedrivePolicy` passes iff the strings are equivalent. Any other key passes iff the values are equal. |
| `SqsWait.MatchAttributes` | internal/service/sqs/wait.go:32-73 | Returns no error iff every expected key passes its check; keys only in `got` play no part. An error returned is the check error of some expected key. |
| `SqsWait.ExtraAttributesIgnored` | internal/service/sqs/wait.go:33 | Adding attributes that are not expected never changes the verdict. |
| `SqsWait.ReadBackMatches` | internal/service/sqs/wait.go:33-72 | Reading back exactly the expected values matches, given that each equivalence holds of a value compared with itself. |
| `SqsWait.NothingReadBack` | internal/service/sqs/wait.go:36-47 | With no attributes read back, the match holds iff every expected value is "" or is "300" for the KMS reuse-period key. |
| `SqsWait.DecimalRoundTrip` | internal/service/sqs/wait.go:43 | The decimal rendering used for the default period reads back as the same number. |
| `SqsWait.DefaultReusePeriodText` | internal/service/sqs/wait.go:43 | The default reuse period renders as "300". |
| `SqsWait.WaitQueueAttributesPropagated` | internal/service/sqs/wait.go:75-108 | The retry goes on past each mismatching read. It stops at the first failed read (returning that error; not retried) or the first match (success). If every attempt mismatched, the last attempt's mismatch error is returned and no further read is made. Only if no attempt completed before the deadline do exactly one more read and one more match decide the result. The count of reads made is returned. |
| `VpcIpv4CidrBlockAssociation.FirstAssociation` | internal/service/ec2/vpc_ipv4_cidr_block_association.go:200-204 | Returns the position of the first association with the requested ID, or reports that none has it. |
| `VpcIpv4CidrBlockAssociation.StateRefresh` | internal/service/ec2/vpc_ipv4_cidr_block_association.go:192-209 | A describe error is returned with state "". If an association has the ID, the result is the first such association and its own state. If the VPC is nil or no association matches, the result is the placeholder value with state "deleted" and no error. |
| `VpcIpv4CidrBlockAssociation.GoneAssociationOutcome` | internal/service/ec2/vpc_ipv4_cidr_block_association.go:102-103 | A gone association yields a state in the disassociation wait's targets (`disassociated`, `deleted`) and outside the association wait's pending and target sets. |
| `VpcIpv4CidrBlockAssociation.CustomizeDiff` | internal/service/ec2/vpc_ipv4_cidr_block_association.go:30-40 | Acts iff the ID is non-empty and `cidr_block` changed. It then clears the change iff the netmask length is non-zero, and forces replacement iff it is zero. |
| `VpcIpv4CidrBlockAssociation.BuildAssociateRequest` | internal/service/ec2/vpc_ipv4_cidr_block_association.go:77-91 | The VPC ID is always sent. Each optional field is present iff it is configured (non-zero). The request carries the configuration exactly (the inverse `RequestConfig` gives it back). |
| `VpcIpv4CidrBlockAssociation.DescribedVpc` | internal/service/ec2/vpc_ipv4_cidr_block_association.go:134-140 | There is no VPC to inspect iff the output is nil, empty or starts with nil; otherwise it is the first VPC. |
| `VpcIpv4CidrBlockAssociation.ReadResult` | internal/service/ec2/vpc_ipv4_cidr_block_association.go:117-160 | A describe error is returned and the state is kept. Otherwise no error is returned. The ID is cleared when there is no VPC or no association with the recorded ID. When there is one, `cidr_block` comes from the first such association and `vpc_id` from the VPC. The IPAM settings are never touched. |
| `VpcIpv4CidrBlockAssociation.AssociationData.Read` | internal/service/ec2/vpc_ipv4_cidr_block_association.go:117-160 | Updates the resource data in place exactly as `ReadResult` prescribes, with the search written as the source's loop. |
| `VpcIpv4CidrBlockAssociation.AssociationData.Create` | internal/service/ec2/vpc_ipv4_cidr_block_association.go:74-115 | The request carries the configuration. A failed request leaves the data alone. A failed wait leaves the new ID recorded. Otherwise Create ends as a Read of the new ID. |
| `VpcIpv4CidrBlockAssociation.DeleteResult` | internal/service/ec2/vpc_ipv4_cidr_block_association.go:162-190 | An `InvalidVpcID.NotFound` error is success with no wait. Any other error is returned. Delete waits iff the disassociation succeeded, and then fails iff the wait failed. |
| `TransitGatewayConnect.FirstPeer` | internal/service/ec2/transit_gateway_connect.go:280-288 | Returns the position of the first non-nil peer in the page with the requested ID; nil entries are skipped. |
| `TransitGatewayConnect.StepOf` | internal/service/ec2/transit_gateway_connect.go:270-294 | For one reply: an error stops with that error; a nil or empty page stops with nothing; a matching peer stops with it. Otherwise an empty cursor stops with nothing and a non-empty cursor continues with it. |
| `TransitGatewayConnect.SearchStopsAtFirstStop` | internal/service/ec2/transit_gateway_connect.go:269-297 | The search's result is what the first reply that stops it decides. Earlier replies only passed their cursor on. |
| `TransitGatewayConnect.SearchFindsRequestedPeer` | internal/service/ec2/transit_gateway_connect.go:280-288 | A peer the search returns has the requested ID and is listed in one of the pages. |
| `TransitGatewayConnect.AbsentPeerNotFound` | internal/service/ec2/transit_gateway_connect.go:269-297 | If no page lists the peer, the search returns nil or an error, never a peer. |
| `TransitGatewayConnect.DescribeConnectPeer` | internal/service/ec2/transit_gateway_connect.go:263-298 | The first request has no cursor. Each later request carries the previous page's cursor. The method stops at the first reply that stops the search and returns its result, which equals `SearchPages`. |
| `TransitGatewayConnect.PeerRefresh` | internal/service/ec2/transit_gateway_connect.go:300-318 | A NotFound error or a nil peer gives state `deleted` with no error. Any other error is wrapped and returned with state "". A peer gives its own state. |
| `TransitGatewayConnect.AbsentPeerRefreshesDeleted` | internal/service/ec2/transit_gateway_connect.go:300-318 | A peer no page lists, searched without error, refreshes to a nil value with state `deleted` and no error. The poller reads the nil value as "not found", so the deletion wait (`NotFoundChecks: 1`, then `tfresource.NotFound`, lines 343-351) ends in success through its not-found path, not through its target state. |
| `TransitGatewayConnect.ConnectReadStep` | internal/service/ec2/transit_gateway_connect.go:121-143 | Read drops the resource iff the attachment is NotFound, nil, or `deleting`/`deleted`. It fails iff another error came back. |
| `TransitGatewayConnect.ReadResult` | internal/service/ec2/transit_gateway_connect.go:116-197 | A gone connect attachment or an absent attachment drops the resource with no error. The connect, gateway, attachment and route-table lookup errors are each returned, with the state unchanged. The route tables are read exactly when the gateway owner equals the attachment's resource owner. On a shared gateway the resource is kept with both settings true. On an owned gateway whose lookups succeed, the resource is kept and each setting reports whether the association or propagation exists. A kept resource records the connect attachment's gateway and transport attachment. |
| `TransitGatewayConnect.ApplyRouteTableChanges` | internal/service/ec2/transit_gateway_connect.go:214-224 | A failed association update is returned and stops before the propagation change. Otherwise the wanted changes are made, the association first, each to the gateway's default route table with the configured flag. No error is returned exactly when no wanted update failed; a failed propagation update is returned as such. |
| `TransitGatewayConnect.CreateResult` | internal/service/ec2/transit_gateway_connect.go:61-114 | A failed create keeps the state. Each later failure before Read (wait, attachment or gateway lookup, missing options, a route-table update) is returned with the new ID kept. No route table is changed unless the gateway is owned; on an owned gateway both configured settings are applied, association first. When no step failed, Create ends exactly as a Read of the new ID. |
| `TransitGatewayConnect.UpdateResult` | internal/service/ec2/transit_gateway_connect.go:199-225 | Nothing happens unless a setting changed. A gateway lookup error and missing gateway options are each returned. Otherwise each changed setting, and only that, goes to the gateway's default route table, association first; a failed association update stops before the propagation change, and no error is returned exactly when no wanted update failed. |
| `TransitGatewayConnect.DeleteResult` | internal/service/ec2/transit_gateway_connect.go:238-261 | A NotFound error is success with no wait. Any other error is returned. Delete waits iff the delete succeeded, and then fails iff the wait failed. |

## Left out

- The framework's polling and retry engine (`StateChangeConf`, `resource.Retry`, delays, timeouts) is not modelled; it depends on wall-clock time. Each wait's verdict is an input (`WaitOutcome`). The pending and target sets appear only as constants.
- WaitQueueAttributesPropagated: the reads completed before the deadline are an input sequence. How `resource.Retry` reports running out of time is taken from terraform-plugin-sdk/v2, which is not part of this model: it returns the last retryable error when an attempt recorded one, and a bare timeout (the only kind `tfresource.TimedOut` accepts) only when no attempt completed. So the final read happens only in that case. When the framework declares the deadline passed is not modelled.
- The policy equivalence test and the JSON-string equivalence for redrive policies are foreign libraries. They are parameters of the matcher.
- The default KMS data key reuse period (300 seconds) is defined outside the modelled file; its value is taken as a constant.
- All cloud API calls, tag handling (default and ignored tags, `tags`, `tags_all`, tag updates) and logging are I/O or foreign code. Their replies are inputs.
- Nil dereferences the Go code would panic on are not modelled. The model always has an association's `CidrBlockState`, a described gateway in Create, Read and Update, and a transport attachment in Create.
- ReadResult (transit gateway connect): Read takes the default route-table IDs from the gateway's options without checking for nil. The model takes the replies of those two lookups as inputs, so the IDs only appear in error values.
- CreateResult and UpdateResult return the route-table changes made. The helpers that perform them live in another file; only their error replies are inputs.
- The search for a connect peer assumes that the remote listing ends, that is, that the last reply given stops the search. The source keeps requesting pages for as long as cursors come back.
- Schema declarations, validators (`IsCIDRNetwork`, `IntBetween`, `NoZeroValues`) and importers belong to the framework.
- The wait for queue deletion (internal/service/sqs/wait.go:111-124) is a pure framework configuration and is not modelled.
- The connect attachment's own wait helpers and lookups (`DescribeTransitGatewayConnect`, `DescribeTransitGatewayAttachment`, `DescribeTransitGateway`, the attachment waits) are defined in other files. Their results are inputs.
