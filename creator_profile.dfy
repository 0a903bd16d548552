/**
 * The creator badge: how an address is shortened, which avatar URL a profile
 * image id resolves to, and which name is shown.
 */
module CreatorProfile {
  import opened Js
  import opened JsString

  const DefaultAvatar := "/default-avatar.png"
  const ArweaveGateway := "https://arweave.net/"

  /** The profile fields the badge reads; each may be missing. */
  datatype Profile = Profile(name: Option<string>, handle: Option<string>, pfp: Option<string>)

  /**
   * `formatAddress`: "Unknown" for an empty address, a short address as is,
   * and a long one as its first six characters, "...", its last four.
   */
  function FormatAddress(addr: string): (r: string)
    ensures addr == [] ==> r == "Unknown"
    ensures 0 < |addr| <= 12 ==> r == addr
    ensures |addr| > 12 ==>
      |r| == 13 && r[..6] == addr[..6] && r[6..9] == "..." && r[9..] == addr[|addr| - 4..]
    ensures r != []
    ensures addr != [] ==> |r| <= |addr|
  {
    if addr == [] then "Unknown"
    else if |addr| <= 12 then addr
    else addr[..6] + "..." + addr[|addr| - 4..]
  }

  /**
   * `getProfileImageUrl`: the default avatar when there is no id, an id that
   * already starts with "http" as is, and otherwise the id on the Arweave
   * gateway. Whatever comes back is the default avatar or an "http" URL.
   */
  function ProfileImageUrl(image: Option<string>): (r: string)
    ensures !Truthy(image) ==> r == DefaultAvatar
    ensures Truthy(image) && StartsWith(image.value, "http") ==> r == image.value
    ensures Truthy(image) && !StartsWith(image.value, "http") ==> r == ArweaveGateway + image.value
    ensures r == DefaultAvatar || StartsWith(r, "http")
  {
    if !Truthy(image) then DefaultAvatar
    else if StartsWith(image.value, "http") then image.value
    else
      assert (ArweaveGateway + image.value)[..4] == ArweaveGateway[..4];
      ArweaveGateway + image.value
  }

  /** Resolving an already resolved URL (other than the default avatar) changes nothing. */
  lemma ProfileImageUrlIdempotent(image: Option<string>)
    requires ProfileImageUrl(image) != DefaultAvatar
    ensures ProfileImageUrl(Some(ProfileImageUrl(image))) == ProfileImageUrl(image)
  {
  }

  /** `profile?.name || profile?.handle || formatAddress(address)`; the name shown is never empty. */
  function DisplayName(profile: Option<Profile>, address: string): (r: string)
    ensures profile.Some? && Truthy(profile.value.name) ==> r == profile.value.name.value
    ensures profile.Some? && !Truthy(profile.value.name) && Truthy(profile.value.handle) ==> r == profile.value.handle.value
    ensures profile.None? || (!Truthy(profile.value.name) && !Truthy(profile.value.handle)) ==> r == FormatAddress(address)
    ensures r != []
  {
    if profile.Some? && Truthy(profile.value.name) then profile.value.name.value
    else if profile.Some? && Truthy(profile.value.handle) then profile.value.handle.value
    else FormatAddress(address)
  }
}
