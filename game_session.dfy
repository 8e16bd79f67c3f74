/**
 * The player's identity for the running application: an authenticated user
 * or a generated guest. A Java null is Option.None.
 */
module Session {
  import opened Wrappers
  import opened Decimal

  const GuestNamePrefix: string := "Guest"
  const GuestIdPrefix: string := "guest_"
  /** The bound passed to Random.nextInt when a guest number is drawn. */
  const GuestDrawBound: int := 9999

  /** "Guest" followed by the decimal form of the guest number. */
  function GuestName(n: int): (s: string)
    requires 1 <= n <= GuestDrawBound
    ensures |GuestNamePrefix| < |s| <= |GuestNamePrefix| + 4
    ensures s[..|GuestNamePrefix|] == GuestNamePrefix
    ensures AllDigits(s[|GuestNamePrefix|..]) && StringToNat(s[|GuestNamePrefix|..]) == n
    ensures s[|GuestNamePrefix|] != '0'
  {
    StringToNatOfNatToString(n);
    NatToStringLength(n, 4);
    var s := GuestNamePrefix + NatToString(n);
    assert s[|GuestNamePrefix|..] == NatToString(n);
    s
  }

  /** "guest_" followed by the decimal form of the clock reading. */
  function GuestUserId(millis: int): (s: string)
    ensures |GuestIdPrefix| < |s| && s[..|GuestIdPrefix|] == GuestIdPrefix
    ensures millis >= 0 ==> AllDigits(s[|GuestIdPrefix|..]) && StringToNat(s[|GuestIdPrefix|..]) == millis
  {
    var s := GuestIdPrefix + IntToString(millis);
    assert s[|GuestIdPrefix|..] == IntToString(millis);
    s
  }

  /** Different guest numbers give different guest names. */
  lemma GuestNamesDiffer(m: int, n: int)
    requires 1 <= m <= GuestDrawBound && 1 <= n <= GuestDrawBound
    requires m != n
    ensures GuestName(m) != GuestName(n)
  {
  }

  class GameSession {
    var userId: Option<string>
    var displayName: Option<string>
    var isGuest: bool

    /** A fresh session has no identity. */
    constructor ()
      ensures userId == None && displayName == None && !isGuest
      ensures !IsLoggedIn()
    {
      userId, displayName, isGuest := None, None, false;
    }

    /** Logged in means both an id and a display name are present. */
    predicate IsLoggedIn(): (b: bool)
      reads this
      ensures b <==> userId != None && displayName != None
    {
      userId.Some? && displayName.Some?
    }

    /** An authenticated user; either argument may be null. */
    method SetUser(id: Option<string>, name: Option<string>)
      modifies this
      ensures userId == id && displayName == name && !isGuest
      ensures IsLoggedIn() <==> id.Some? && name.Some?
    {
      userId := id;
      displayName := name;
      isGuest := false;
    }

    /**
     * A guest identity. `draw` is the value of Random.nextInt(9999), so the
     * guest number draw + 1 lies in 1..9999; `millis` is the clock reading.
     */
    method CreateGuestUser(draw: int, millis: int)
      requires 0 <= draw < GuestDrawBound
      modifies this
      ensures displayName == Some(GuestName(draw + 1))
      ensures userId == Some(GuestUserId(millis))
      ensures isGuest && IsLoggedIn()
    {
      var guestNumber := draw + 1;
      displayName := Some(GuestNamePrefix + NatToString(guestNumber));
      userId := Some(GuestIdPrefix + IntToString(millis));
      isGuest := true;
    }

    /** Logout: no identity remains. */
    method ClearSession()
      modifies this
      ensures userId == None && displayName == None && !isGuest
      ensures !IsLoggedIn()
    {
      userId := None;
      displayName := None;
      isGuest := false;
    }
  }
}
