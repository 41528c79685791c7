/** Single-use, expiring tokens that prove a recent password check. */
module Reauth {
  import opened Wrappers

  type Wallet = nat
  type Token = string
  type Time = int // milliseconds

  const TOKEN_LIFETIME: Time := 120_000

  datatype Purpose = Spend | ViewSeedPhrase

  datatype TokenRecord = TokenRecord(wallet: Wallet, purpose: Purpose, expiresAt: Time, used: bool)

  datatype ReauthError = Invalid | Expired

  type Tokens = map<Token, TokenRecord>

  predicate Usable(tokens: Tokens, token: Token, wallet: Wallet, purpose: Purpose) {
    token in tokens && !tokens[token].used
    && tokens[token].wallet == wallet && tokens[token].purpose == purpose
  }

  predicate Accepted(tokens: Tokens, token: Token, wallet: Wallet, purpose: Purpose, now: Time) {
    Usable(tokens, token, wallet, purpose) && now <= tokens[token].expiresAt
  }

  function Used(tokens: Tokens, token: Token): Tokens
    requires token in tokens
  {
    tokens[token := tokens[token].(used := true)]
  }

  class ReauthManager {
    var tokens: Tokens

    constructor ()
      ensures tokens == map[]
    {
      tokens := map[];
    }

    method Issue(token: Token, wallet: Wallet, purpose: Purpose, now: Time)
      returns (expiresAt: Time)
      modifies this
      ensures expiresAt == now + TOKEN_LIFETIME
      ensures Accepted(tokens, token, wallet, purpose, expiresAt)
      ensures !Accepted(tokens, token, wallet, purpose, expiresAt + 1)
      ensures tokens == old(tokens)[token := tokens[token]]
    {
      expiresAt := now + TOKEN_LIFETIME;
      tokens := tokens[token := TokenRecord(wallet, purpose, expiresAt, false)];
    }

    method ValidateAndConsume(token: Token, wallet: Wallet, purpose: Purpose, now: Time)
      returns (r: Result<(), ReauthError>)
      modifies this
      ensures r.Ok? <==> Accepted(old(tokens), token, wallet, purpose, now)
      ensures r == Err(Expired) <==>
        Usable(old(tokens), token, wallet, purpose) && now > old(tokens)[token].expiresAt
      ensures tokens == if r.Ok? then Used(old(tokens), token) else old(tokens)
      ensures r.Ok? ==> forall w, p, t :: !Accepted(tokens, token, w, p, t)
    {
      if token !in tokens {
        return Err(Invalid);
      }
      var record := tokens[token];
      if record.used {
        return Err(Invalid);
      }
      if record.wallet != wallet || record.purpose != purpose {
        return Err(Invalid);
      }
      if now > record.expiresAt {
        return Err(Expired);
      }
      tokens := tokens[token := record.(used := true)];
      return Ok(());
    }
  }
}
