/** The institution login page the user is sent to in the browser. */
module AuthUrl {

  const Prefix := "https://get.cbord.com/"
  const Suffix := "/full/login.php?mobileapp=1"

  /** getAuthURL: the login page of the institution with short name `shortName`. */
  function GetAuthUrl(shortName: string): (u: string)
    ensures |u| == |Prefix| + |shortName| + |Suffix|
    ensures u[..|Prefix|] == Prefix
    ensures u[|Prefix|..|Prefix| + |shortName|] == shortName
    ensures u[|Prefix| + |shortName|..] == Suffix
  {
    Prefix + shortName + Suffix
  }

  /** The short name is recovered from the URL: different institutions get different pages. */
  lemma GetAuthUrlInjective(a: string, b: string)
    requires GetAuthUrl(a) == GetAuthUrl(b)
    ensures a == b
  {
    assert |a| == |b|;
    assert a == GetAuthUrl(a)[|Prefix|..|Prefix| + |a|];
  }

  /** For example, the short name "utdallas". */
  lemma GetAuthUrlExample()
    ensures GetAuthUrl("utdallas") == "https://get.cbord.com/utdallas/full/login.php?mobileapp=1"
  {
  }
}
