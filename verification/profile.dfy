/** A user's profile and the update options derived from it (profile.go). */
module Profiles {
  import opened Results

  /** `LishAuthMethod` is a string type; the API knows three values (lines 12-16). */
  type LishAuthMethod = string

  const AuthMethodPasswordKeys: LishAuthMethod := "password_keys"
  const AuthMethodKeysOnly: LishAuthMethod := "keys_only"
  const AuthMethodDisabled: LishAuthMethod := "disabled"

  /** The three authentication methods are distinct strings. */
  lemma AuthMethodsDistinct()
    ensures AuthMethodPasswordKeys != AuthMethodKeysOnly
    ensures AuthMethodPasswordKeys != AuthMethodDisabled
    ensures AuthMethodKeysOnly != AuthMethodDisabled
  {
    assert AuthMethodPasswordKeys[0] != AuthMethodKeysOnly[0];
    assert AuthMethodPasswordKeys[0] != AuthMethodDisabled[0];
    assert AuthMethodKeysOnly[0] != AuthMethodDisabled[0];
  }

  /** `ProfileReferrals` (lines 19-26), without its floating-point `Credit`. */
  datatype ProfileReferrals = ProfileReferrals(total: int, completed: int, pending: int, code: string, url: string)

  /** `Profile` (lines 29-41); a nil `AuthorizedKeys` slice is `None`. */
  datatype Profile = Profile(
    uid: int,
    username: string,
    email: string,
    timezone: string,
    emailNotifications: bool,
    ipWhitelistEnabled: bool,
    twoFactorAuth: bool,
    restricted: bool,
    lishAuthMethod: LishAuthMethod,
    referrals: ProfileReferrals,
    authorizedKeys: Option<seq<string>>)

  /** `ProfileUpdateOptions` (lines 44-53); each Go pointer is an `Option`. */
  datatype ProfileUpdateOptions = ProfileUpdateOptions(
    email: string,
    timezone: string,
    emailNotifications: Option<bool>,
    ipWhitelistEnabled: Option<bool>,
    lishAuthMethod: LishAuthMethod,
    authorizedKeys: Option<seq<string>>,
    twoFactorAuth: Option<bool>,
    restricted: Option<bool>)

  /** The keys a profile lists; a nil slice lists none. */
  function Keys(p: Profile): seq<string>
  {
    if p.authorizedKeys.Some? then p.authorizedKeys.value else []
  }

  /** `GetUpdateOptions` (lines 56-69): strings copied, every flag a non-nil pointer to the
      profile's value, and the keys a non-nil copy of the profile's list, empty when the
      profile has none. */
  function GetUpdateOptions(p: Profile): (o: ProfileUpdateOptions)
    ensures o.email == p.email && o.timezone == p.timezone && o.lishAuthMethod == p.lishAuthMethod
    ensures o.emailNotifications == Some(p.emailNotifications)
    ensures o.ipWhitelistEnabled == Some(p.ipWhitelistEnabled)
    ensures o.twoFactorAuth == Some(p.twoFactorAuth)
    ensures o.restricted == Some(p.restricted)
    ensures o.authorizedKeys.Some?
    ensures |o.authorizedKeys.value| == |Keys(p)|
    ensures forall i :: 0 <= i < |Keys(p)| ==> o.authorizedKeys.value[i] == Keys(p)[i]
    ensures p.authorizedKeys.None? ==> o.authorizedKeys == Some([])
  {
    var keys := seq(|Keys(p)|, i requires 0 <= i < |Keys(p)| => Keys(p)[i]);
    ProfileUpdateOptions(
      p.email,
      p.timezone,
      Some(p.emailNotifications),
      Some(p.ipWhitelistEnabled),
      p.lishAuthMethod,
      Some(keys),
      Some(p.twoFactorAuth),
      Some(p.restricted))
  }

  /** Two profiles give the same update options exactly when they agree on the eight fields a
      profile update can set, a nil key list counting as an empty one; the user id, the
      username and the referrals play no part. */
  lemma UpdateOptionsDetermineSettableFields(p: Profile, q: Profile)
    ensures GetUpdateOptions(p) == GetUpdateOptions(q) <==>
      && p.email == q.email && p.timezone == q.timezone
      && p.emailNotifications == q.emailNotifications && p.ipWhitelistEnabled == q.ipWhitelistEnabled
      && p.twoFactorAuth == q.twoFactorAuth && p.restricted == q.restricted
      && p.lishAuthMethod == q.lishAuthMethod && Keys(p) == Keys(q)
  {
    var o, r := GetUpdateOptions(p), GetUpdateOptions(q);
    if o == r {
      assert Keys(p) == o.authorizedKeys.value;
      assert Keys(q) == r.authorizedKeys.value;
    }
    if Keys(p) == Keys(q) {
      assert o.authorizedKeys.value == Keys(p);
      assert r.authorizedKeys.value == Keys(q);
    }
  }
}
