/** src/AccessToken.php: the stored credential row. */
module AccessTokens {

  const NotAvailable: string := "not available"

  datatype AccessToken = AccessToken(
    profileId: nat, accessCode: string, userId: string, username: string,
    userFullname: string, userProfilePicture: string)

  /** The response keys the mapping reads. */
  predicate HasTokenKeys(details: map<string, string>) {
    "access_token" in details && "id" in details && "username" in details
  }

  /** `createFromResponseArray($profile, $token_details)`, without the database insert. */
  function CreateFromResponseArray(profileId: nat, details: map<string, string>): (t: AccessToken)
    requires HasTokenKeys(details)
    ensures t.profileId == profileId
    ensures t.accessCode == details["access_token"]
    ensures t.userId == details["id"] && t.username == details["username"]
    ensures t.userFullname == NotAvailable && t.userProfilePicture == NotAvailable
  {
    AccessToken(profileId, details["access_token"], details["id"], details["username"],
                NotAvailable, NotAvailable)
  }

  /** The response array a token was built from: the partner of CreateFromResponseArray. */
  function ResponseArrayOf(t: AccessToken): map<string, string> {
    map["access_token" := t.accessCode, "id" := t.userId, "username" := t.username]
  }

  /** Keys other than the three it reads do not influence the token. */
  lemma CreateIgnoresOtherKeys(profileId: nat, details: map<string, string>, extra: map<string, string>)
    requires HasTokenKeys(details)
    requires "access_token" !in extra && "id" !in extra && "username" !in extra
    ensures HasTokenKeys(details + extra)
    ensures CreateFromResponseArray(profileId, details + extra) == CreateFromResponseArray(profileId, details)
  {
  }

  /** A token whose display fields are unavailable is rebuilt from its own response array. */
  lemma CreateRoundTrip(t: AccessToken)
    requires t.userFullname == NotAvailable && t.userProfilePicture == NotAvailable
    ensures HasTokenKeys(ResponseArrayOf(t))
    ensures CreateFromResponseArray(t.profileId, ResponseArrayOf(t)) == t
  {
  }
}
