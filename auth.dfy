/**
 * The sign-in / sign-up handler of the authentication page: the form check, the profile update
 * that records the user's jurisdiction, and the sequence of calls to the hosted backend, each of
 * which may fail and stops the rest when it does.
 */
module Auth {
  import opened Wrappers
  import opened Schema
  import CleanupRoadDamage

  /** The form fields the handler reads. */
  datatype AuthForm = AuthForm(
    isLogin: bool, email: string, password: string, fullName: string,
    authorityType: string, organization: string)

  /** The sign-up check: an empty authority type or organization (both falsy strings) is refused. */
  predicate MissingInformation(form: AuthForm)
  {
    !form.isLogin && (form.authorityType == "" || form.organization == "")
  }

  /** The organization choices offered for each authority type. */
  const OrganizationOptions: map<string, seq<string>> := map[
    "federal" := ["Nord", "Nordost", "West", "Südwest", "Süd"],
    "state" := [
      "Baden-Württemberg", "Bayern", "Berlin", "Brandenburg", "Bremen",
      "Hamburg", "Hessen", "Mecklenburg-Vorpommern", "Niedersachsen",
      "Nordrhein-Westfalen", "Rheinland-Pfalz", "Saarland", "Sachsen",
      "Sachsen-Anhalt", "Schleswig-Holstein", "Thüringen"],
    "district" := [
      "Aachen", "Altenkirchen", "Bad Kreuznach", "Berchtesgadener Land",
      "Börde", "Darmstadt-Dieburg", "Enzkreis", "Esslingen", "Friesland",
      "Göttingen", "Harburg", "Hersfeld-Rotenburg", "Main-Kinzig-Kreis"],
    "municipal" := [
      "Berlin", "Hamburg", "München", "Köln", "Frankfurt am Main",
      "Stuttgart", "Düsseldorf", "Leipzig", "Dortmund", "Essen",
      "Bremen", "Dresden", "Hannover", "Nürnberg", "Duisburg"]
  ]

  /**
   * Choosing an authority type and one of its listed organizations always passes the sign-up
   * check.
   */
  lemma ListedChoicesPass(form: AuthForm)
    requires form.authorityType in OrganizationOptions
    requires form.organization in OrganizationOptions[form.authorityType]
    ensures !MissingInformation(form)
  {
    assert form.authorityType != "";
    var options := OrganizationOptions[form.authorityType];
    assert forall o :: o in options ==> o != "";
  }

  /**
   * The four authority types offered are `app_role` labels other than admin, so the role insert
   * of a listed type sends a role the store accepts, and never the admin role.
   */
  lemma OfferedTypesAreRoles(authorityType: string)
    requires authorityType in OrganizationOptions
    ensures ParseRole(authorityType).Some? && ParseRole(authorityType).value != Admin
    ensures RoleName(ParseRole(authorityType).value) == authorityType
  {
  }

  /**
   * The federal choices are five Autobahn regions; "Ost", the region the reconciliation function
   * writes for its Brandenburg locations, is not among them.
   */
  lemma FederalOptionsLackOst()
    ensures "Ost" !in OrganizationOptions["federal"]
    ensures CleanupRoadDamage.LocationsToCorrect[7].autobahnRegion == Some("Ost")
  {
  }

  /** The `profiles` update: the two form values, plus at most one jurisdiction column. */
  datatype ProfileUpdate = ProfileUpdate(
    authorityType: string, organization: string,
    state: Option<string>, district: Option<string>, municipality: Option<string>)

  /** The update for an authority type and organization, as a value. */
  function ProfileUpdateFor(authorityType: string, organization: string): ProfileUpdate
  {
    var base := ProfileUpdate(authorityType, organization, None, None, None);
    if authorityType == "state" then base.(state := Some(organization))
    else if authorityType == "district" then base.(district := Some(organization))
    else if authorityType == "municipal" then base.(municipality := Some(organization))
    else base
  }

  /** The number of jurisdiction columns an update sets. */
  function JurisdictionCount(u: ProfileUpdate): nat
  {
    (if u.state.Some? then 1 else 0) + (if u.district.Some? then 1 else 0) + (if u.municipality.Some? then 1 else 0)
  }

  /**
   * The update always carries the entered authority type and organization; "state", "district"
   * and "municipal" copy the organization into their own column and nowhere else; every other
   * authority type ("federal" among them) sets no jurisdiction column.
   */
  lemma ProfileUpdateJurisdiction(authorityType: string, organization: string)
    ensures var u := ProfileUpdateFor(authorityType, organization);
      && u.authorityType == authorityType && u.organization == organization
      && JurisdictionCount(u) <= 1
      && (JurisdictionCount(u) == 1 <==> authorityType in {"state", "district", "municipal"})
      && (u.state.Some? ==> u.state.value == organization)
      && (u.district.Some? ==> u.district.value == organization)
      && (u.municipality.Some? ==> u.municipality.value == organization)
      && (u.state.Some? <==> authorityType == "state")
      && (u.district.Some? <==> authorityType == "district")
      && (u.municipality.Some? <==> authorityType == "municipal")
  {
  }

  /** `profileUpdate`, built field by field as the handler does. */
  method BuildProfileUpdate(authorityType: string, organization: string) returns (u: ProfileUpdate)
    ensures u == ProfileUpdateFor(authorityType, organization)
  {
    u := ProfileUpdate(authorityType, organization, None, None, None);
    if authorityType == "state" {
      u := u.(state := Some(organization));
    } else if authorityType == "district" {
      u := u.(district := Some(organization));
    } else if authorityType == "municipal" {
      u := u.(municipality := Some(organization));
    }
  }

  /** A call the handler makes to the hosted backend. */
  datatype Request =
    | SignIn(email: string, password: string)
    | SignUp(email: string, password: string, fullName: string)
    | UpdateProfile(userId: UserId, update: ProfileUpdate)
    | InsertRole(userId: UserId, role: string)

  /**
   * What each call answers: an error message or success; sign-up also answers the new user,
   * which may be absent.
   */
  datatype Responses = Responses(
    signIn: Option<string>, signUp: Result<Option<UserId>, string>,
    profile: Option<string>, role: Option<string>)

  /** The message the handler shows. */
  datatype Toast = MissingInfo | WelcomeBack | AccountCreated | AuthError(message: string)

  /** The calls the handler makes, in order, and the message it ends with. */
  function AuthSpec(form: AuthForm, responses: Responses): (seq<Request>, Toast)
  {
    if MissingInformation(form) then ([], MissingInfo)
    else if form.isLogin then
      ([SignIn(form.email, form.password)],
       if responses.signIn.Some? then AuthError(responses.signIn.value) else WelcomeBack)
    else
      var signUp := SignUp(form.email, form.password, form.fullName);
      if responses.signUp.Err? then ([signUp], AuthError(responses.signUp.error))
      else if responses.signUp.value.None? then ([signUp], AccountCreated)
      else
        var user := responses.signUp.value.value;
        var update := UpdateProfile(user, ProfileUpdateFor(form.authorityType, form.organization));
        if responses.profile.Some? then ([signUp, update], AuthError(responses.profile.value))
        else
          var role := InsertRole(user, form.authorityType);
          if responses.role.Some? then ([signUp, update, role], AuthError(responses.role.value))
          else ([signUp, update, role], AccountCreated)
  }

  /** The hosted backend as the handler sees it: the log of calls it has received. */
  class Backend {
    var requests: seq<Request>

    constructor()
      ensures requests == []
    {
      requests := [];
    }

    /** Sends one call; its answer is `response`. */
    method Call<T>(r: Request, response: T) returns (answer: T)
      modifies this
      ensures requests == old(requests) + [r]
      ensures answer == response
    {
      requests := requests + [r];
      answer := response;
    }
  }

  /** `handleAuth`: every call is awaited in turn, and the first error ends the sequence. */
  method HandleAuth(backend: Backend, form: AuthForm, responses: Responses) returns (toast: Toast)
    modifies backend
    ensures backend.requests == old(backend.requests) + AuthSpec(form, responses).0
    ensures toast == AuthSpec(form, responses).1
  {
    if !form.isLogin && (form.authorityType == "" || form.organization == "") {
      assert backend.requests == old(backend.requests) + [];
      return MissingInfo;
    }
    if form.isLogin {
      var err := backend.Call(SignIn(form.email, form.password), responses.signIn);
      if err.Some? {
        return AuthError(err.value);
      }
      return WelcomeBack;
    }
    var signUp := backend.Call(SignUp(form.email, form.password, form.fullName), responses.signUp);
    if signUp.Err? {
      return AuthError(signUp.error);
    }
    if signUp.value.Some? {
      var user := signUp.value.value;
      var update := BuildProfileUpdate(form.authorityType, form.organization);
      var profileErr := backend.Call(UpdateProfile(user, update), responses.profile);
      if profileErr.Some? {
        return AuthError(profileErr.value);
      }
      var roleErr := backend.Call(InsertRole(user, form.authorityType), responses.role);
      if roleErr.Some? {
        return AuthError(roleErr.value);
      }
    }
    return AccountCreated;
  }

  /** A sign-up missing its authority type or organization makes no call at all. */
  lemma MissingInfoMakesNoCall(form: AuthForm, responses: Responses)
    ensures MissingInformation(form) <==> AuthSpec(form, responses) == ([], MissingInfo)
  {
  }

  /**
   * Signing in skips the jurisdiction check: whatever the authority type and organization, the
   * one call is the password sign-in, and it succeeds exactly when the backend reports no error.
   */
  lemma LoginSkipsCheck(form: AuthForm, responses: Responses)
    requires form.isLogin
    ensures AuthSpec(form, responses).0 == [SignIn(form.email, form.password)]
    ensures AuthSpec(form, responses).1 == WelcomeBack <==> responses.signIn.None?
  {
  }

  /**
   * The role is inserted only right after a successful profile update for the same user, and
   * the role sent is the authority type as entered.
   */
  lemma RoleAfterProfile(form: AuthForm, responses: Responses, i: nat)
    requires i < |AuthSpec(form, responses).0| && AuthSpec(form, responses).0[i].InsertRole?
    ensures var calls := AuthSpec(form, responses).0;
      && i == 2 && calls[1].UpdateProfile? && calls[1].userId == calls[i].userId
      && calls[1].update == ProfileUpdateFor(form.authorityType, form.organization)
      && responses.profile.None?
      && calls[i].role == form.authorityType
  {
  }

  /**
   * The first failing call is the last call made, and its message is the one shown; the
   * account is reported created only when no call failed.
   */
  lemma ErrorStopsSequence(form: AuthForm, responses: Responses)
    requires !form.isLogin && !MissingInformation(form)
    ensures var (calls, toast) := AuthSpec(form, responses);
      && (responses.signUp.Err? ==> |calls| == 1 && toast == AuthError(responses.signUp.error))
      && (responses.signUp.Ok? && responses.signUp.value.Some? && responses.profile.Some? ==>
            |calls| == 2 && toast == AuthError(responses.profile.value))
      && (toast == AccountCreated <==>
            responses.signUp.Ok? &&
            (responses.signUp.value.Some? ==> responses.profile.None? && responses.role.None?))
  {
  }
}
