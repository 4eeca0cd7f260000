/*
 * The login page (myreact-app/src/components/Login.jsx): after a successful
 * login it records the identifier and unlocks the "First Login" badge in the
 * badge list the browser keeps.  Its default list is the five-badge catalog
 * of the server's profile schema, badge for badge.
 */
module Login {
  import opened Wrappers
  import opened Seqs
  import opened Records

  /** `badge.id === 1 ? { ...badge, earned: true } : badge`. */
  function UnlockBadge(b: Badge): (r: Badge)
    ensures b.id == Some(1) ==> r == b.(earned := true)
    ensures b.id != Some(1) ==> r == b
  {
    if b.id == Some(1) then b.(earned := true) else b
  }

  /**
   * `unlockFirstLoginBadge`: the stored list (`None` when nothing or `null`
   * is stored, so the default catalog is used), with every badge whose id is
   * 1 marked earned.  A stored empty list stays empty.
   */
  function UnlockFirstLogin(stored: Option<seq<Badge>>): (r: seq<Badge>)
    ensures |r| == |stored.GetOr(DefaultAchievements())|
    ensures forall i :: 0 <= i < |r| ==> r[i] == UnlockBadge(stored.GetOr(DefaultAchievements())[i])
  {
    MapBack(stored.GetOr(DefaultAchievements()), UnlockBadge)
  }

  /**
   * What unlocking does to each badge: badges with id 1 end earned with
   * nothing else changed, every other badge is untouched, and no badge is
   * ever un-earned.
   */
  lemma UnlockOnlyFirstLogin(stored: Option<seq<Badge>>, i: int)
    requires 0 <= i < |stored.GetOr(DefaultAchievements())|
    ensures var base := stored.GetOr(DefaultAchievements());
      var r := UnlockFirstLogin(stored);
      r[i].id == base[i].id && r[i].title == base[i].title && r[i].description == base[i].description &&
      r[i].icon == base[i].icon &&
      (r[i].earned <==> base[i].earned || base[i].id == Some(1))
  {
  }

  /** Logging in again changes nothing more: unlocking is idempotent. */
  lemma UnlockIdempotent(stored: Option<seq<Badge>>)
    ensures UnlockFirstLogin(Some(UnlockFirstLogin(stored))) == UnlockFirstLogin(stored)
  {
    var once := UnlockFirstLogin(stored);
    var twice := UnlockFirstLogin(Some(once));
    assert |twice| == |once|;
    forall i | 0 <= i < |once| ensures twice[i] == once[i] {
      assert twice[i] == UnlockBadge(once[i]);
    }
  }

  /**
   * In a browser with no stored list the first login yields the catalog
   * with exactly "First Login" earned.
   */
  lemma FirstLoginOnFreshBrowser()
    ensures var r := UnlockFirstLogin(None);
      |r| == 5 && r[0].title == FirstLogin && r[0].earned &&
      forall i :: 1 <= i < 5 ==> !r[i].earned && r[i] == DefaultAchievements()[i]
  {
    var r := UnlockFirstLogin(None);
    var d := DefaultAchievements();
    assert r[0] == UnlockBadge(d[0]);
    forall i | 1 <= i < 5 ensures !r[i].earned && r[i] == d[i] {
      assert d[i].id == Some(i + 1);
    }
  }

  /** How the server answered the login request. */
  datatype LoginResponse = Accepted | Refused | Unreachable

  /** What `handleLogin` leaves in the browser's storage and shows. */
  datatype LoginResult = LoginResult(message: string, identifier: Option<string>, achievements: Option<seq<Badge>>)

  const LoginSucceeded: string := "\U{2705} Login successful! Redirecting..."
  const LoginRefused: string := "\U{274C} Invalid username or password, try logging in again!"
  const LoginServerError: string := "\U{274C} Server error. Please try again later."

  /**
   * `handleLogin`: on success the identifier as typed (a username or an
   * e-mail) is stored and the badge list is unlocked; on any other answer
   * storage keeps what it had.
   */
  function HandleLogin(identifier: string, response: LoginResponse, storedIdentifier: Option<string>,
                       storedAchievements: Option<seq<Badge>>): (r: LoginResult)
    ensures response == Accepted <==> r.message == LoginSucceeded
    ensures response == Accepted ==>
              r.identifier == Some(identifier) && r.achievements == Some(UnlockFirstLogin(storedAchievements))
    ensures response != Accepted ==>
              r.identifier == storedIdentifier && r.achievements == storedAchievements
  {
    match response
    case Accepted => LoginResult(LoginSucceeded, Some(identifier), Some(UnlockFirstLogin(storedAchievements)))
    case Refused => LoginResult(LoginRefused, storedIdentifier, storedAchievements)
    case Unreachable => LoginResult(LoginServerError, storedIdentifier, storedAchievements)
  }
}
