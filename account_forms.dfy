/** The email rules of the registration and profile-update forms. The user
    table is a list of accounts. */
module AccountForms {
  import opened Common

  datatype Account = Account(pk: int, email: string)

  /** A cleaned field: the accepted value, or the validation message. */
  datatype Cleaned = Accepted(email: string) | Rejected(message: string)

  /** Both forms make the email field required. */
  const RequiredMessage: string := "This field is required."
  const TakenMessage: string := "An account with this email already exists"
  const TooLongMessage: string := "Your email is too long"
  const MaxEmailLength: int := 350

  /** `User.objects.filter(email=email).exists()` */
  predicate Taken(email: string, users: seq<Account>) {
    exists i :: 0 <= i < |users| && users[i].email == email
  }

  /** The accounts other than the one with key `pk` (`.exclude(pk=pk)`). */
  function Others(users: seq<Account>, pk: int): (r: seq<Account>)
    ensures forall a :: a in r <==> a in users && a.pk != pk
  {
    if users == [] then []
    else if users[0].pk == pk then Others(users[1..], pk)
    else [users[0]] + Others(users[1..], pk)
  }

  /** The checks shared by both forms, after the required check: uniqueness
      against `existing` first, then length. */
  function CheckEmail(email: string, existing: seq<Account>): (r: Cleaned)
    ensures r.Accepted? <==> !Taken(email, existing) && |email| < MaxEmailLength
    ensures r.Accepted? ==> r.email == email
    ensures r.Rejected? ==> r.message == (if Taken(email, existing) then TakenMessage else TooLongMessage)
  {
    if Taken(email, existing) then Rejected(TakenMessage)
    else if |email| >= MaxEmailLength then Rejected(TooLongMessage)
    else Accepted(email)
  }

  /** `CreateUserForm.clean_email`, after the field's required check. */
  function CleanEmailCreate(email: Option<string>, users: seq<Account>): Cleaned {
    if email.None? || email.value == [] then Rejected(RequiredMessage)
    else CheckEmail(email.value, users)
  }

  /** `UpdateUserForm.clean_email` for the account with key `selfPk`. */
  function CleanEmailUpdate(email: Option<string>, users: seq<Account>, selfPk: int): Cleaned {
    if email.None? || email.value == [] then Rejected(RequiredMessage)
    else CheckEmail(email.value, Others(users, selfPk))
  }

  /** Registration accepts exactly a present email that no account holds and
      that is shorter than 350 characters, and returns it unchanged; an email
      that is both taken and too long is reported as taken. */
  lemma CreateAcceptsExactly(email: Option<string>, users: seq<Account>)
    ensures CleanEmailCreate(email, users).Accepted? <==>
      email.Some? && email.value != [] && !Taken(email.value, users) && |email.value| < MaxEmailLength
    ensures CleanEmailCreate(email, users).Accepted? ==> CleanEmailCreate(email, users).email == email.value
    ensures email.Some? && email.value != [] && Taken(email.value, users) ==>
      CleanEmailCreate(email, users) == Rejected(TakenMessage)
  {
  }

  /** The update form applies the registration rules to every account but
      the one being edited. */
  lemma UpdateIsCreateAmongOthers(email: Option<string>, users: seq<Account>, selfPk: int)
    ensures CleanEmailUpdate(email, users, selfPk) == CleanEmailCreate(email, Others(users, selfPk))
  {
  }

  /** An email is taken among the others exactly when some account with a
      different key holds it. */
  lemma TakenByOthers(email: string, users: seq<Account>, selfPk: int)
    ensures Taken(email, Others(users, selfPk)) <==>
      exists i :: 0 <= i < |users| && users[i].email == email && users[i].pk != selfPk
  {
    var o := Others(users, selfPk);
    if Taken(email, o) {
      var i :| 0 <= i < |o| && o[i].email == email;
      assert o[i] in users;
      var j :| 0 <= j < |users| && users[j] == o[i];
    }
    if exists i :: 0 <= i < |users| && users[i].email == email && users[i].pk != selfPk {
      var i :| 0 <= i < |users| && users[i].email == email && users[i].pk != selfPk;
      assert users[i] in o;
      var j :| 0 <= j < |o| && o[j] == users[i];
    }
  }

  /** Re-submitting one's own email on the profile form is accepted as long
      as no other account holds it and it is short enough, even though it is
      taken in the table, which registration would refuse. */
  lemma OwnEmailAccepted(users: seq<Account>, k: nat)
    requires k < |users| && users[k].email != [] && |users[k].email| < MaxEmailLength
    requires forall i :: 0 <= i < |users| && i != k ==> users[i].email != users[k].email
    ensures CleanEmailUpdate(Some(users[k].email), users, users[k].pk) == Accepted(users[k].email)
    ensures CleanEmailCreate(Some(users[k].email), users) == Rejected(TakenMessage)
  {
    TakenByOthers(users[k].email, users, users[k].pk);
  }
}
