/** The registration form (src/pages/Register.tsx): the order of its checks,
    the body it posts to `/users`, the reset after a success and the message
    shown after a failure. The form's state hooks become the fields of a
    class; the post's outcome is a parameter. */
module RegisterPage {
  import opened Lists
  import opened Domain

  const MsgIncomplete := "Veuillez remplir tous les champs obligatoires"
  const MsgMismatch := "Les mots de passe ne correspondent pas"
  const MsgTaken := "Email ou Badge déjà utilisé"
  const MsgFailed := "Erreur lors de l'inscription"

  /** The body posted to `/users`. */
  datatype RegisterPayload = RegisterPayload(
    nom: string,
    prenom: string,
    email: string,
    password: string,
    role: Role,
    badgeId: string)

  /** What submitting decides before any request: a message, or the body. */
  datatype RegisterCheck = Refused(message: string) | Post(payload: RegisterPayload)

  function CheckRegistration(nom: string, prenom: string, email: string, pwd: string,
                             confirmPwd: string, role: Role, badgeId: string): RegisterCheck
  {
    if nom == "" || prenom == "" || email == "" || pwd == "" || badgeId == "" then Refused(MsgIncomplete)
    else if pwd != confirmPwd then Refused(MsgMismatch)
    else Post(RegisterPayload(nom, prenom, email, pwd, role, badgeId))
  }

  /** A body is posted exactly when every required field is filled in and
      both passwords agree; it carries the typed password as `password` and
      the badge as `badge_id`. A missing field is reported even when the
      passwords also differ. */
  lemma CheckRegistrationOutcomes(nom: string, prenom: string, email: string, pwd: string,
                                  confirmPwd: string, role: Role, badgeId: string)
    ensures var c := CheckRegistration(nom, prenom, email, pwd, confirmPwd, role, badgeId);
      && (c.Post? <==> nom != "" && prenom != "" && email != "" && pwd != "" && badgeId != "" && pwd == confirmPwd)
      && (c.Post? ==> c.payload.password == pwd && c.payload.badgeId == badgeId && c.payload.role == role
                      && c.payload.nom == nom && c.payload.prenom == prenom && c.payload.email == email)
      && ((nom == "" || prenom == "" || email == "" || pwd == "" || badgeId == "") ==> c == Refused(MsgIncomplete))
      && (c == Refused(MsgMismatch) <==>
           (nom != "" && prenom != "" && email != "" && pwd != "" && badgeId != "" && pwd != confirmPwd))
  {
  }

  /** The failure message: 422 (a duplicate email or badge) gets its own. */
  function FailureMessage(status: Option<int>): (m: string)
    ensures m == MsgTaken <==> status == Some(422)
    ensures m == MsgTaken || m == MsgFailed
  {
    if status == Some(422) then MsgTaken else MsgFailed
  }

  /** How the post ends: created, or an error with the reply's status when
      there was a reply. */
  datatype PostOutcome = Created | PostFailed(status: Option<int>)

  /** The inputs that clear the error message when they change; the role
      select is not one of them. */
  datatype Input = Nom | Prenom | Email | Pwd | ConfirmPwd | BadgeId

  class RegisterForm {
    var nom: string
    var prenom: string
    var email: string
    var pwd: string
    var confirmPwd: string
    var role: Role
    var badgeId: string
    var errMsg: string

    function Check(): RegisterCheck
      reads this
    {
      CheckRegistration(nom, prenom, email, pwd, confirmPwd, role, badgeId)
    }

    /** Every field empty, the role back to seller. */
    predicate IsBlank()
      reads this
    {
      nom == "" && prenom == "" && email == "" && pwd == "" && confirmPwd == "" && badgeId == "" && role == Vendeur
    }

    constructor()
      ensures IsBlank() && errMsg == ""
    {
      nom, prenom, email, pwd, confirmPwd, badgeId := "", "", "", "", "", "";
      role := Vendeur;
      errMsg := "";
    }

    /** Typing in an input; a changed value clears the error message. */
    method Type(input: Input, value: string)
      modifies this
      ensures role == old(role)
      ensures nom == (if input == Nom then value else old(nom))
      ensures prenom == (if input == Prenom then value else old(prenom))
      ensures email == (if input == Email then value else old(email))
      ensures pwd == (if input == Pwd then value else old(pwd))
      ensures confirmPwd == (if input == ConfirmPwd then value else old(confirmPwd))
      ensures badgeId == (if input == BadgeId then value else old(badgeId))
      ensures errMsg == if (nom, prenom, email, pwd, confirmPwd, badgeId)
                           == old((nom, prenom, email, pwd, confirmPwd, badgeId))
                        then old(errMsg) else ""
    {
      var before := (nom, prenom, email, pwd, confirmPwd, badgeId);
      match input {
        case Nom => nom := value;
        case Prenom => prenom := value;
        case Email => email := value;
        case Pwd => pwd := value;
        case ConfirmPwd => confirmPwd := value;
        case BadgeId => badgeId := value;
      }
      if (nom, prenom, email, pwd, confirmPwd, badgeId) != before {
        errMsg := "";
      }
    }

    /** The role select; the error message stays. */
    method SelectRole(r: Role)
      modifies this
      ensures role == r && errMsg == old(errMsg)
      ensures nom == old(nom) && prenom == old(prenom) && email == old(email)
      ensures pwd == old(pwd) && confirmPwd == old(confirmPwd) && badgeId == old(badgeId)
    {
      role := r;
    }

    /** `handleSubmit`: a refused form only gets its message; a posted form
        is reset after a success and gets the failure message otherwise.
        `outcome` is how the post would end. */
    method Submit(outcome: PostOutcome) returns (posted: Option<RegisterPayload>)
      modifies this
      ensures posted == (if old(Check()).Post? then Some(old(Check()).payload) else None)
      ensures old(Check()).Refused? ==>
        (errMsg == old(Check()).message
         && unchanged(this`nom, this`prenom, this`email, this`pwd, this`confirmPwd, this`role, this`badgeId))
      ensures old(Check()).Post? && outcome == Created ==> IsBlank() && errMsg == ""
      ensures old(Check()).Post? && outcome.PostFailed? ==>
        (errMsg == FailureMessage(outcome.status)
         && unchanged(this`nom, this`prenom, this`email, this`pwd, this`confirmPwd, this`role, this`badgeId))
    {
      errMsg := "";
      var check := Check();
      if check.Refused? {
        errMsg := check.message;
        return None;
      }
      posted := Some(check.payload);
      match outcome
      case Created =>
        nom, prenom, email, pwd, confirmPwd, badgeId := "", "", "", "", "", "";
        role := Vendeur;
      case PostFailed(status) =>
        errMsg := FailureMessage(status);
    }
  }
}
