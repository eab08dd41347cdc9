/** The bounded cache of JWT ids (the `jti` claim, section 4.1.7 of RFC 7519) kept by
    `BearerJWTAuthBackend`, backend/src/qts/api/security.py. */
module ReplayCache {
  import opened Optional
  import opened Sequences
  import opened Deques

  /** What `verify` learns from a token before it looks at the cache. */
  datatype Token = Token(wellFormed: bool, signed: bool, expired: bool, jti: Option<string>)

  datatype Verdict = Admitted | Invalid | Expired | Replayed

  /** The cache, oldest first, and every jti admitted so far. */
  datatype State = State(seen: seq<string>, admitted: seq<string>)

  function VerdictOf(seen: seq<string>, token: Token): Verdict {
    if !token.wellFormed || !token.signed then Invalid
    else if token.expired then Expired
    else if token.jti.Some? && token.jti.value in seen then Replayed
    else Admitted
  }

  function Verify(capacity: nat, s: State, token: Token): State {
    if VerdictOf(s.seen, token).Admitted? && token.jti.Some?
    then State(LastN(s.seen + [token.jti.value], capacity), s.admitted + [token.jti.value])
    else s
  }

  function Run(capacity: nat, tokens: seq<Token>): State {
    if tokens == [] then State([], [])
    else Verify(capacity, Run(capacity, tokens[..|tokens| - 1]), tokens[|tokens| - 1])
  }

  /** No jti equals one of the `capacity` admitted just before it. */
  ghost predicate Spaced(capacity: nat, admitted: seq<string>) {
    forall i, j :: 0 <= i < j < |admitted| && j - i <= capacity ==> admitted[i] != admitted[j]
  }

  lemma SpacedWindow(capacity: nat, admitted: seq<string>)
    requires Spaced(capacity, admitted)
    ensures Distinct(LastN(admitted, capacity))
  {
    var window := LastN(admitted, capacity);
    forall a, b | 0 <= a < b < |window| ensures window[a] != window[b] {
      var k := |admitted| - |window|;
      assert window[a] == admitted[k + a] && window[b] == admitted[k + b];
    }
  }

  lemma SpacedAppend(capacity: nat, admitted: seq<string>, jti: string)
    requires Spaced(capacity, admitted) && jti !in LastN(admitted, capacity)
    ensures Spaced(capacity, admitted + [jti])
  {
    var n, window := |admitted|, LastN(admitted, capacity);
    forall i | 0 <= i < n && n - i <= capacity ensures admitted[i] != jti {
      assert admitted[i] == window[i - (n - |window|)];
    }
  }

  /** In every run the cache holds, in order and without duplicates, the last jtis admitted. */
  lemma {:induction false} CacheHoldsLast(capacity: nat, tokens: seq<Token>)
    requires capacity > 0
    ensures var s := Run(capacity, tokens);
            && s.seen == LastN(s.admitted, capacity) && Distinct(s.seen) && Spaced(capacity, s.admitted)
  {
    if tokens != [] {
      var before, token := Run(capacity, tokens[..|tokens| - 1]), tokens[|tokens| - 1];
      CacheHoldsLast(capacity, tokens[..|tokens| - 1]);
      if VerdictOf(before.seen, token).Admitted? && token.jti.Some? {
        LastNAppend(before.admitted, capacity, token.jti.value);
        SpacedAppend(capacity, before.admitted, token.jti.value);
        SpacedWindow(capacity, before.admitted + [token.jti.value]);
      }
    }
  }

  /** A signed, unexpired token is rejected as a replay exactly when its jti is among the
      last `capacity` admitted. */
  lemma ReplayedIff(capacity: nat, tokens: seq<Token>, token: Token)
    requires capacity > 0 && token.wellFormed && token.signed && !token.expired && token.jti.Some?
    ensures var s := Run(capacity, tokens);
            VerdictOf(s.seen, token) == Replayed <==> token.jti.value in LastN(s.admitted, capacity)
  {
    CacheHoldsLast(capacity, tokens);
  }

  /** What a run makes of one more token: unsigned and malformed tokens are invalid, then expired ones expired; the rest
      are admitted unless their jti is among the last `capacity` admitted, and then it is remembered. */
  lemma VerdictIff(capacity: nat, tokens: seq<Token>, token: Token)
    requires capacity > 0
    ensures var s, verdict := Run(capacity, tokens), VerdictOf(Run(capacity, tokens).seen, token);
            var genuine := token.wellFormed && token.signed;
            var known := token.jti.Some? && token.jti.value in LastN(s.admitted, capacity);
            && (verdict == Invalid <==> !genuine)
            && (verdict == Expired <==> genuine && token.expired)
            && (verdict == Replayed <==> genuine && !token.expired && known)
            && (verdict == Admitted <==> genuine && !token.expired && !known)
            && Run(capacity, tokens + [token]).admitted
            == s.admitted + (if verdict == Admitted && token.jti.Some? then [token.jti.value] else [])
  {
    CacheHoldsLast(capacity, tokens);
    assert (tokens + [token])[..|tokens|] == tokens;
  }

  /** Only genuine, unexpired tokens ever get their jti admitted. */
  lemma {:induction false} AdmittedWereGenuine(capacity: nat, tokens: seq<Token>, jti: string)
    requires jti in Run(capacity, tokens).admitted
    ensures exists i :: 0 <= i < |tokens| && tokens[i].wellFormed && tokens[i].signed && !tokens[i].expired
                        && tokens[i].jti == Some(jti)
  {
    var n := |tokens| - 1;
    if jti in Run(capacity, tokens[..n]).admitted {
      AdmittedWereGenuine(capacity, tokens[..n], jti);
      var i :| 0 <= i < n && tokens[..n][i].wellFormed && tokens[..n][i].signed && !tokens[..n][i].expired
               && tokens[..n][i].jti == Some(jti);
      assert tokens[i] == tokens[..n][i];
    } else {
      assert tokens[n].jti == Some(jti);
    }
  }

  ghost function Members(s: seq<string>): set<string> { set x | x in s }

  lemma {:induction false} DistinctCount(s: seq<string>)
    requires Distinct(s)
    ensures |Members(s)| == |s|
  {
    if s != [] {
      var init, x := s[..|s| - 1], s[|s| - 1];
      DistinctCount(init);
      assert s == init + [x] && x !in init;
      assert Members(s) == Members(init) + {x};
    } else {
      assert Members(s) == {};
    }
  }

  lemma SubsetCount(a: set<string>, b: set<string>)
    requires a <= b
    ensures |a| <= |b|
  {
    assert b == a + (b - a);
  }

  /** A jti is admitted again only after at least `capacity` distinct others in between. */
  lemma ReadmittedOnlyAfterEviction(capacity: nat, tokens: seq<Token>, i: nat, j: nat)
    requires capacity > 0
    requires i < j < |Run(capacity, tokens).admitted|
    requires Run(capacity, tokens).admitted[i] == Run(capacity, tokens).admitted[j]
    ensures var admitted := Run(capacity, tokens).admitted;
            |Members(admitted[i + 1..j]) - {admitted[i]}| >= capacity
  {
    CacheHoldsLast(capacity, tokens);
    var admitted := Run(capacity, tokens).admitted;
    assert j - i > capacity;
    var window := admitted[j - capacity..j];
    forall a, b | 0 <= a < b < capacity ensures window[a] != window[b] {
      assert window[a] == admitted[j - capacity + a] && window[b] == admitted[j - capacity + b];
    }
    DistinctCount(window);
    forall x | x in Members(window) ensures x in Members(admitted[i + 1..j]) - {admitted[i]} {
      var a :| 0 <= a < capacity && window[a] == x;
      assert admitted[j - capacity + a] == x && admitted[i + 1..j][j - capacity + a - i - 1] == x;
    }
    SubsetCount(Members(window), Members(admitted[i + 1..j]) - {admitted[i]});
  }

  /** The verifier object; `_seen_jti` is an ordered dictionary used as an ordered set. */
  class JwtVerifier {
    const capacity: nat
    var seen: seq<string>
    ghost var admitted: seq<string>

    ghost function View(): State
      reads this
    {
      State(seen, admitted)
    }

    /** At most one entry over capacity can ever wait for eviction. */
    ghost predicate Valid()
      reads this
    {
      capacity > 0 && |seen| <= capacity
    }

    constructor (capacity: nat)
      requires capacity > 0
      ensures Valid() && this.capacity == capacity && View() == Run(capacity, [])
    {
      this.capacity := capacity;
      seen, admitted := [], [];
    }

    method VerifyToken(token: Token) returns (verdict: Verdict)
      requires Valid()
      modifies this
      ensures Valid() && verdict == VerdictOf(old(seen), token)
      ensures View() == Verify(capacity, old(View()), token)
    {
      if !token.wellFormed || !token.signed {
        return Invalid;
      }
      if token.expired {
        return Expired;
      }
      if token.jti.Some? {
        var jti := token.jti.value;
        if jti in seen {
          return Replayed;
        }
        seen := seen + [jti];
        admitted := admitted + [jti];
        while |seen| > capacity
          invariant LastN(seen, capacity) == LastN(old(seen) + [jti], capacity)
          invariant admitted == old(admitted) + [jti]
          invariant |seen| >= capacity || seen == old(seen) + [jti]
          decreases |seen|
        {
          seen := seen[1..];
        }
      }
      return Admitted;
    }
  }
}
