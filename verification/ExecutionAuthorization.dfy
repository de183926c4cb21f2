/**
  The process-local authority of one-shot execution authorizations: an issued token can be
  consumed once, for the binding it was issued for, before it expires.
 */
module ExecutionAuthorization {
  import opened Basics

  /** The token has no fields; only the authority's map can resolve it. */
  class Token {
    constructor () {}
  }

  datatype Issued<B> = Issued(binding: B, issuedAt: int, expiresAt: int, consumed: bool)

  datatype Denial = Invalid | Replayed | Expired | BindingMismatch

  datatype Answer<B> = Granted(projection: Issued<B>) | Denied(why: Denial)

  /** `consume`, on the record of the token; checks in this order. */
  function Consume<B(==)>(record: Option<Issued<B>>, expected: B, now: int): Answer<B> {
    if record.None? then Denied(Invalid)
    else if record.value.consumed then Denied(Replayed)
    else if now >= record.value.expiresAt then Denied(Expired)
    else if record.value.binding != expected then Denied(BindingMismatch)
    else Granted(record.value)
  }

  class ExecutionAuthorizationAuthority<B(==,!new)> {
    var issued: map<Token, Issued<B>>
    /** Every consumption that was granted so far, with its time. */
    ghost var granted: seq<(Token, int)>

    constructor ()
      ensures Valid() && issued == map[] && granted == []
    {
      issued, granted := map[], [];
    }

    /** Each token is granted at most once, before its expiry; exactly the granted ones are marked consumed. */
    ghost predicate Valid()
      reads this
    {
      && (forall t | t in issued :: issued[t].issuedAt < issued[t].expiresAt)
      && (forall t | t in issued :: issued[t].consumed <==> exists i :: 0 <= i < |granted| && granted[i].0 == t)
      && (forall i | 0 <= i < |granted| :: granted[i].0 in issued && granted[i].1 < issued[granted[i].0].expiresAt)
      && (forall i, j | 0 <= i < j < |granted| :: granted[i].0 != granted[j].0)
    }

    method Issue(binding: B, ttlMs: int, now: int) returns (token: Token)
      requires Valid() && ttlMs > 0
      modifies this
      ensures Valid() && fresh(token)
      ensures issued == old(issued)[token := Issued(binding, now, now + ttlMs, false)]
      ensures granted == old(granted)
    {
      token := new Token();
      issued := issued[token := Issued(binding, now, now + ttlMs, false)];
    }

    method ConsumeToken(token: Token, expected: B, now: int) returns (answer: Answer<B>)
      requires Valid()
      modifies this
      ensures Valid()
      ensures answer == Consume(if token in old(issued) then Some(old(issued)[token]) else None, expected, now)
      ensures answer.Granted? ==>
                && (forall i | 0 <= i < |old(granted)| :: old(granted)[i].0 != token)
                && granted == old(granted) + [(token, now)]
                && issued == old(issued)[token := old(issued)[token].(consumed := true)]
                && answer.projection.binding == expected && now < answer.projection.expiresAt
      ensures answer.Denied? ==> issued == old(issued) && granted == old(granted)
    {
      if token !in issued {
        return Denied(Invalid);
      }
      var record := issued[token];
      if record.consumed {
        return Denied(Replayed);
      }
      if now >= record.expiresAt {
        return Denied(Expired);
      }
      if record.binding != expected {
        return Denied(BindingMismatch);
      }
      ghost var before := granted;
      issued := issued[token := record.(consumed := true)];
      granted := granted + [(token, now)];
      assert granted[|before|] == (token, now);
      assert forall i | 0 <= i < |before| :: granted[i] == before[i];
      return Granted(record);
    }
  }
}
