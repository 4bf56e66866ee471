/**
 * The page header: the avatar initials derived from the email, and the title
 * and greeting chosen by role.
 */
module Header {
  import opened Wrappers
  import opened Records
  import Seqs
  import Text

  /** `email.split('@')[0]`: everything before the first `@`, or the whole email without one. */
  function LocalPart(email: string): (r: string)
    ensures |r| <= |email| && r == email[..|r|] && '@' !in r
    ensures ('@' !in email) ==> r == email
    ensures ('@' in email) ==> |r| < |email| && email[|r|] == '@'
  {
    var r := Text.BeforeFirst(email, '@');
    assert |r| < |email| ==> email[|r|] in email;
    r
  }

  /** `getInitials`: the first two characters of the local part, upper-cased. */
  function Initials(email: string): (r: string)
    ensures |r| <= 2 && |r| <= |LocalPart(email)|
    ensures |r| == 2 || |r| == |LocalPart(email)|
    ensures forall k :: 0 <= k < |r| ==> r[k] == Text.UpperChar(LocalPart(email)[k])
    ensures forall k :: 0 <= k < |r| ==> !Text.IsAsciiLower(r[k]) && r[k] != '@'
  {
    var local := LocalPart(email);
    var r := Text.Upper(Seqs.Take(local, 2));
    assert forall k :: 0 <= k < |r| ==> local[k] != '@';
    r
  }

  /** The avatar text: the initials when someone is signed in, nothing otherwise. */
  function AvatarText(user: Option<User>): (r: string)
    ensures user.None? ==> r == ""
    ensures user.Some? ==> r == Initials(user.value.email)
  {
    if user.Some? then Initials(user.value.email) else ""
  }

  /** The heading: the clinic dashboard for an admin, the patient portal for anyone else. */
  function Title(user: Option<User>): (r: string)
    ensures r == "Dental Center Dashboard" <==> IsAdmin(user)
    ensures r == "Patient Portal" <==> !IsAdmin(user)
  {
    if IsAdmin(user) then "Dental Center Dashboard" else "Patient Portal"
  }

  /**
   * The name after "Welcome back, ": "Dr. Admin" for an admin, the email's
   * local part for another user, and nothing when no one is signed in.
   */
  function Greeting(user: Option<User>): (r: string)
    ensures IsAdmin(user) ==> r == "Dr. Admin"
    ensures (user.Some? && !IsAdmin(user)) ==> r == LocalPart(user.value.email)
    ensures user.None? ==> r == ""
  {
    match user
    case None => ""
    case Some(u) => if u.role == AdminRole then "Dr. Admin" else LocalPart(u.email)
  }

  /** A patient's initials are the first two characters of their greeting, upper-cased. */
  lemma InitialsFromGreeting(user: Option<User>)
    requires user.Some? && !IsAdmin(user)
    ensures AvatarText(user) == Text.Upper(Seqs.Take(Greeting(user), 2))
  {
  }
}
