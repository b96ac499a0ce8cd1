/** The fenced reservation row of one external effect and the conditional updates that move it. */
module Claims {
  import opened Prelude
  import opened Outcomes

  type Owner = string

  datatype Claim = Claim(status: ClaimStatus, owner: Owner, token: nat)

  /** UPDATE ... WHERE status = FAILED_RETRYABLE AND fencing_token = seen; None when no row matched. */
  function Reclaim(row: Option<Claim>, seen: nat, owner: Owner): Option<Claim> {
    if row.Some? && row.value.status == FAILED_RETRYABLE && row.value.token == seen
    then Some(Claim(CLAIMED, owner, seen + 1))
    else None
  }

  /** UPDATE ... WHERE owner, fencing token and status match; None when no row matched. */
  function Transition(row: Option<Claim>, owner: Owner, token: nat, from: set<ClaimStatus>,
                      to: ClaimStatus): Option<Claim> {
    if row.Some? && row.value.owner == owner && row.value.token == token && row.value.status in from
    then Some(row.value.(status := to))
    else None
  }

  /** INSERT ON CONFLICT DO NOTHING, then a reclaim guarded by the token just read, in one transaction. */
  function Acquire(row: Option<Claim>, owner: Owner): Option<Claim> {
    match row
    case None => Some(Claim(CLAIMED, owner, 1))
    case Some(c) => Reclaim(row, c.token, owner)
  }
}
