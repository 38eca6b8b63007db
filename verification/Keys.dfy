/** The cache-key constructors, and which keys can ever coincide. */
module Keys {

  datatype CacheKey =
    | LoginAttempts(identifier: string)
    | AccountLock(identifier: string)
    | UserProfile(identity: string)
    | ApiKeyLookup(keyHash: string)
    | EmailVerification(token: string)
    | ResendCooldown(userId: string)
    | PasswordReset(token: string)
    | RateLimit(ip: string, endpoint: string)

  /** The Redis key of each family. Note that the rate-limit key puts the endpoint before the address. */
  function Render(k: CacheKey): string {
    match k
    case LoginAttempts(identifier) => "iam:login_attempts:" + identifier
    case AccountLock(identifier) => "iam:account_lock:" + identifier
    case UserProfile(identity) => "iam:user:profile:" + identity
    case ApiKeyLookup(keyHash) => "iam:api_key:" + keyHash
    case EmailVerification(token) => "iam:email_verify:" + token
    case ResendCooldown(userId) => "iam:resend_cooldown:" + userId
    case PasswordReset(token) => "iam:password_reset:" + token
    case RateLimit(ip, endpoint) => "iam:rate_limit:" + endpoint + ":" + ip
  }

  /** Two rate-limit keys that print alike: the longer endpoint swallows the start of the other address. */
  ghost predicate Straddles(a: CacheKey, b: CacheKey)
    requires a.RateLimit? && b.RateLimit?
  {
    exists x: string :: a.endpoint == b.endpoint + ":" + x && b.ip == x + ":" + a.ip
  }

  /** The two characters after the namespace tell the family. */
  lemma FamilyTag(k: CacheKey)
    ensures |Render(k)| >= 12
    ensures Render(k)[4] ==
            match k
            case LoginAttempts(_) => 'l'
            case AccountLock(_) => 'a'
            case UserProfile(_) => 'u'
            case ApiKeyLookup(_) => 'a'
            case EmailVerification(_) => 'e'
            case ResendCooldown(_) => 'r'
            case PasswordReset(_) => 'p'
            case RateLimit(_, _) => 'r'
    ensures k.AccountLock? ==> Render(k)[5] == 'c'
    ensures k.ApiKeyLookup? ==> Render(k)[5] == 'p'
    ensures k.ResendCooldown? ==> Render(k)[5] == 'e'
    ensures k.RateLimit? ==> Render(k)[5] == 'a'
  {
  }

  lemma SamePrefix(p: string, a: string, b: string)
    requires p + a == p + b
    ensures a == b
  {
    assert (p + a)[|p|..] == a;
    assert (p + b)[|p|..] == b;
  }

  /** Where two `endpoint:ip` texts coincide, either the parts do or one endpoint ends inside the other. */
  lemma SplitColon(e1: string, i1: string, e2: string, i2: string)
    requires e1 + ":" + i1 == e2 + ":" + i2
    requires |e1| > |e2|
    ensures exists x: string :: e1 == e2 + ":" + x && i2 == x + ":" + i1
  {
    var s := e1 + ":" + i1;
    var x := e1[|e2| + 1..];
    assert s[..|e1|] == e1 && s[|e1| + 1..] == i1;
    assert s[..|e2|] == e2 && s[|e2| + 1..] == i2;
    assert s[|e2|] == ':' && s[|e1|] == ':';
    assert e1 == e2 + ":" + x;
    assert i2 == x + ":" + i1;
  }

  /**
    Two cache keys coincide exactly when they are the same key, or are two rate-limit keys of which
    one endpoint straddles the other. So all families are disjoint, and all but one are injective.
   */
  lemma KeyCollision(a: CacheKey, b: CacheKey)
    ensures Render(a) == Render(b) <==>
            a == b || (a.RateLimit? && b.RateLimit? && (Straddles(a, b) || Straddles(b, a)))
  {
    FamilyTag(a);
    FamilyTag(b);
    if a.RateLimit? && b.RateLimit? {
      RateLimitCollision(a, b);
    } else if Render(a) == Render(b) {
      SameFamily(a, b);
    }
  }

  lemma SameFamily(a: CacheKey, b: CacheKey)
    requires Render(a) == Render(b)
    requires !a.RateLimit? || !b.RateLimit?
    ensures a == b
  {
    FamilyTag(a);
    FamilyTag(b);
    match a
    case LoginAttempts(x) => SamePrefix("iam:login_attempts:", x, b.identifier);
    case AccountLock(x) => SamePrefix("iam:account_lock:", x, b.identifier);
    case UserProfile(x) => SamePrefix("iam:user:profile:", x, b.identity);
    case ApiKeyLookup(x) => SamePrefix("iam:api_key:", x, b.keyHash);
    case EmailVerification(x) => SamePrefix("iam:email_verify:", x, b.token);
    case ResendCooldown(x) => SamePrefix("iam:resend_cooldown:", x, b.userId);
    case PasswordReset(x) => SamePrefix("iam:password_reset:", x, b.token);
    case RateLimit(_, _) =>
  }

  lemma RateLimitCollision(a: CacheKey, b: CacheKey)
    requires a.RateLimit? && b.RateLimit?
    ensures Render(a) == Render(b) <==> a == b || Straddles(a, b) || Straddles(b, a)
  {
    var p := "iam:rate_limit:";
    var ta, tb := a.endpoint + ":" + a.ip, b.endpoint + ":" + b.ip;
    assert Render(a) == p + ta;
    assert Render(b) == p + tb;
    if Render(a) == Render(b) {
      SamePrefix(p, ta, tb);
      if |a.endpoint| > |b.endpoint| {
        SplitColon(a.endpoint, a.ip, b.endpoint, b.ip);
      } else if |a.endpoint| < |b.endpoint| {
        SplitColon(b.endpoint, b.ip, a.endpoint, a.ip);
      } else {
        assert ta[..|a.endpoint|] == a.endpoint && tb[..|b.endpoint|] == b.endpoint;
        assert ta[|a.endpoint| + 1..] == a.ip && tb[|b.endpoint| + 1..] == b.ip;
      }
    }
    StraddlingKeysCollide(a, b);
    StraddlingKeysCollide(b, a);
  }

  lemma StraddlingKeysCollide(a: CacheKey, b: CacheKey)
    requires a.RateLimit? && b.RateLimit?
    ensures Straddles(a, b) ==> Render(a) == Render(b) && ':' in a.endpoint
  {
  }

  /** No key of the service collides with another when rate-limited paths hold no colon. */
  lemma KeysInjective(a: CacheKey, b: CacheKey)
    requires a.RateLimit? ==> ':' !in a.endpoint
    requires b.RateLimit? ==> ':' !in b.endpoint
    ensures Render(a) == Render(b) ==> a == b
  {
    KeyCollision(a, b);
    if a.RateLimit? && b.RateLimit? {
      StraddlingKeysCollide(a, b);
      StraddlingKeysCollide(b, a);
    }
  }
}
