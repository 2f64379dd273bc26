/**
 * The bearer-token lifecycle of models/topArtists.js: the module-level expiry
 * time, the refresh that overwrites it after a client-credentials grant, and
 * the check that refreshes only once the recorded expiry has passed.
 * Clock readings and the grant's answer are parameters.
 */
module Credentials {
  import opened SpotifyTypes

  /** What the source subtracts from the grant's lifetime (in seconds): 30 * 1000. */
  const MarginAsWritten: int := 30 * 1000

  /** The 30-second margin the source's comment describes. */
  const MarginIntended: int := 30

  /**
   * The expiry recorded after a grant that completes at `grantTime` (Unix
   * milliseconds) with a lifetime of `expiresIn` seconds, `margin` being
   * subtracted from the lifetime before it is scaled to milliseconds.
   */
  function GrantedExpiry(grantTime: int, expiresIn: int, margin: int): (expiry: int)
    ensures expiry < grantTime <==> expiresIn < margin
    ensures margin >= 0 ==> expiry <= grantTime + expiresIn * 1000
  {
    grantTime + (expiresIn - margin) * 1000
  }

  /** The check of handleCredentials: the token is treated as expired once its expiry is before now. */
  predicate NeedsRefresh(expiry: int, now: int)
  {
    expiry < now
  }

  /**
   * The check is strict: a token is still used at its expiry instant; once a
   * refresh is due it stays due at every later clock reading.
   */
  lemma RefreshStaysDue(expiry: int, now: int, later: int)
    requires now <= later
    ensures !NeedsRefresh(expiry, expiry)
    ensures NeedsRefresh(expiry, now) ==> NeedsRefresh(expiry, later)
  {
  }

  /**
   * After a grant, a refresh is due exactly when the clock has passed the
   * token's real end of life (grantTime + expiresIn seconds) less `margin`
   * SECONDS: whatever unit the margin was meant in, it is read as seconds.
   */
  lemma RefreshDueBeforeRealExpiry(grantTime: int, expiresIn: int, margin: int, now: int)
    ensures NeedsRefresh(GrantedExpiry(grantTime, expiresIn, margin), now)
        <==> now > grantTime + expiresIn * 1000 - margin * 1000
  {
  }

  /**
   * As written: every lifetime shorter than 30000 seconds (Spotify hands out
   * 3600) gives an expiry before the grant itself, so every later check asks
   * for a new token.
   */
  lemma AsWrittenGrantIsAlreadyStale(grantTime: int, expiresIn: int, now: int)
    requires expiresIn < MarginAsWritten
    requires grantTime <= now
    ensures GrantedExpiry(grantTime, expiresIn, MarginAsWritten) < grantTime
    ensures NeedsRefresh(GrantedExpiry(grantTime, expiresIn, MarginAsWritten), now)
  {
  }

  /** Spotify's one-hour token, as written, expires 26400 seconds before it was granted. */
  lemma HourLongGrantAsWritten(grantTime: int)
    ensures GrantedExpiry(grantTime, 3600, MarginAsWritten) == grantTime - 26400 * 1000
    ensures NeedsRefresh(GrantedExpiry(grantTime, 3600, MarginAsWritten), grantTime)
  {
  }

  /**
   * Corrected: with a 30-second margin a grant of more than 30 seconds stays
   * valid from the grant until 30 seconds before the token's real end of
   * life, and is refreshed after that.
   */
  lemma IntendedGrantIsEarlyByMargin(grantTime: int, expiresIn: int, now: int)
    requires expiresIn > MarginIntended
    ensures grantTime <= now <= grantTime + expiresIn * 1000 - 30 * 1000
        ==> !NeedsRefresh(GrantedExpiry(grantTime, expiresIn, MarginIntended), now)
    ensures now > grantTime + expiresIn * 1000 - 30 * 1000
        ==> NeedsRefresh(GrantedExpiry(grantTime, expiresIn, MarginIntended), now)
  {
    RefreshDueBeforeRealExpiry(grantTime, expiresIn, MarginIntended, now);
  }

  /**
   * The process-wide credential state: the expiry time `spotifyAPITokenExpieryTime`
   * and the access token installed in the API client. `grantsRequested` counts
   * the grant requests sent, so that "no grant happens" can be stated.
   */
  class TokenManager {
    const margin: int
    var expiry: int
    var accessToken: Option<string>
    ghost var grantsRequested: nat

    /** The state at module load, with the margin arithmetic as written. */
    constructor AsWritten()
      ensures margin == MarginAsWritten
      ensures expiry == 0 && accessToken == None && grantsRequested == 0
    {
      margin := MarginAsWritten;
      expiry := 0;
      accessToken := None;
      grantsRequested := 0;
    }

    /** The state at module load, with the 30-second margin the comment describes. */
    constructor Corrected()
      ensures margin == MarginIntended
      ensures expiry == 0 && accessToken == None && grantsRequested == 0
    {
      margin := MarginIntended;
      expiry := 0;
      accessToken := None;
      grantsRequested := 0;
    }

    /**
     * refreshSpotifyAccessToken: one grant request; `grantTime` is the clock
     * when its answer arrives. A granted token is installed with its expiry;
     * a failed grant leaves everything as it was and rejects.
     */
    method Refresh(grantTime: int, grant: Grant) returns (r: Outcome<()>)
      modifies this
      ensures grantsRequested == old(grantsRequested) + 1
      ensures grant.Granted? ==>
        && r == Resolved(())
        && expiry == GrantedExpiry(grantTime, grant.expiresIn, margin)
        && accessToken == Some(grant.accessToken)
      ensures grant.GrantFailed? ==>
        && r == Rejected(AuthError(grant.err))
        && expiry == old(expiry)
        && accessToken == old(accessToken)
    {
      grantsRequested := grantsRequested + 1;
      match grant
      case Granted(token, expiresIn) =>
        var tokenLifeSeconds := expiresIn;
        tokenLifeSeconds := tokenLifeSeconds - margin;
        expiry := grantTime + tokenLifeSeconds * 1000;
        accessToken := Some(token);
        r := Resolved(());
      case GrantFailed(err) =>
        r := Rejected(AuthError(err));
    }

    /**
     * handleCredentials: at clock `now`, refresh exactly when the recorded
     * expiry is before `now`; otherwise resolve at once, with no grant and no
     * change of state.
     */
    method HandleCredentials(now: int, grantTime: int, grant: Grant) returns (r: Outcome<()>)
      modifies this
      ensures NeedsRefresh(old(expiry), now) ==>
        && grantsRequested == old(grantsRequested) + 1
        && (grant.Granted? ==>
              && r == Resolved(())
              && expiry == GrantedExpiry(grantTime, grant.expiresIn, margin)
              && accessToken == Some(grant.accessToken))
        && (grant.GrantFailed? ==>
              && r == Rejected(AuthError(grant.err))
              && expiry == old(expiry)
              && accessToken == old(accessToken))
      ensures !NeedsRefresh(old(expiry), now) ==>
        && r == Resolved(())
        && expiry == old(expiry)
        && accessToken == old(accessToken)
        && grantsRequested == old(grantsRequested)
    {
      if expiry < now {
        r := Refresh(grantTime, grant);
      } else {
        r := Resolved(());
      }
    }
  }

  /**
   * Module load: the expiry starts at 0 and one refresh is started at once,
   * its outcome dropped (a failed grant is an unhandled rejection), so a
   * failed startup grant leaves the initial state in place.
   */
  method LoadModule(grantTime: int, grant: Grant) returns (tm: TokenManager)
    ensures fresh(tm) && tm.margin == MarginAsWritten && tm.grantsRequested == 1
    ensures grant.Granted? ==>
      tm.expiry == GrantedExpiry(grantTime, grant.expiresIn, MarginAsWritten) && tm.accessToken == Some(grant.accessToken)
    ensures grant.GrantFailed? ==> tm.expiry == 0 && tm.accessToken == None
  {
    tm := new TokenManager.AsWritten();
    var _ := tm.Refresh(grantTime, grant);
  }

  /**
   * Two checks, at `now` and then at `later`: while the token is still valid
   * at `later` neither sends a grant request; with the margin as written, a
   * check after a granted token of less than 30000 seconds sends another;
   * with the 30-second margin, a check before the margin starts sends none.
   */
  method CheckTwice(tm: TokenManager, now: int, grantTime: int, later: int, grant: Grant)
      returns (first: Outcome<()>, second: Outcome<()>)
    modifies tm
    ensures now <= later && !NeedsRefresh(old(tm.expiry), later) ==>
      && first == Resolved(()) && second == Resolved(())
      && tm.grantsRequested == old(tm.grantsRequested)
    ensures (&& NeedsRefresh(old(tm.expiry), now) && tm.margin == MarginAsWritten
             && grant.Granted? && grant.expiresIn < MarginAsWritten && grantTime <= later) ==>
      tm.grantsRequested == old(tm.grantsRequested) + 2
    ensures (&& NeedsRefresh(old(tm.expiry), now) && tm.margin == MarginIntended
             && grant.Granted? && grant.expiresIn > MarginIntended
             && grantTime <= later <= grantTime + grant.expiresIn * 1000 - 30 * 1000) ==>
      && second == Resolved(())
      && tm.grantsRequested == old(tm.grantsRequested) + 1
  {
    first := tm.HandleCredentials(now, grantTime, grant);
    if NeedsRefresh(old(tm.expiry), now) && tm.margin == MarginAsWritten && grant.Granted? && grant.expiresIn < MarginAsWritten && grantTime <= later {
      AsWrittenGrantIsAlreadyStale(grantTime, grant.expiresIn, later);
    }
    if NeedsRefresh(old(tm.expiry), now) && tm.margin == MarginIntended && grant.Granted? && grant.expiresIn > MarginIntended {
      IntendedGrantIsEarlyByMargin(grantTime, grant.expiresIn, later);
    }
    second := tm.HandleCredentials(later, grantTime, grant);
  }
}
