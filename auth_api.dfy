/** The authentication gateway of src/features/auth/api.ts. Every backend call is an
    input: its `{ data, error }` answer is a `Response`, and a call that throws is
    `Threw`. What each function returns, or the message of the `Error` it throws, is
    computed from those answers. */
module AuthApi {
  import opened Wrappers

  /** A backend error: its message and its optional machine code. */
  datatype BackendError = BackendError(message: string, code: Option<string>)

  /** The `{ data, error }` pair every backend call answers with. */
  datatype Response<T> = Response(data: Option<T>, error: Option<BackendError>)

  /** A backend call that either answered or threw. */
  datatype Attempt<T> = Threw | Completed(response: Response<T>)

  /** An identity record of the authentication service. */
  datatype Identity = Identity(id: string, email: string, metadataNickname: Option<string>)

  /** A row of the `profiles` table as read back. */
  datatype Profile = Profile(
    nickname: string,
    avatarUrl: Option<string>,
    sellerExperience: Option<string>,
    onlinePlatforms: Option<seq<string>>,
    expectations: Option<string>)

  /** The signed-in user the rest of the application sees. */
  datatype AuthUser = AuthUser(
    id: string,
    email: string,
    nickname: string,
    avatarUrl: Option<string>,
    sellerExperience: Option<string>,
    onlinePlatforms: Option<seq<string>>,
    expectations: Option<string>)

  /** What the sign-up form submits. */
  datatype SignUpData = SignUpData(
    email: string,
    password: string,
    nickname: string,
    sellerExperience: string,
    onlinePlatforms: seq<string>,
    expectations: string)

  /** A row inserted into `profiles` after the identity is created. */
  datatype ProfileRow = ProfileRow(
    id: string,
    email: string,
    nickname: string,
    sellerExperience: string,
    onlinePlatforms: seq<string>,
    expectations: string)

  /** The identity-creation request: e-mail, password and the nickname as metadata. */
  datatype IdentityRequest = IdentityRequest(email: string, password: string, nickname: string)

  /** `s` occurs in `text` (`text.includes(s)`). */
  predicate Contains(text: string, s: string) {
    exists i :: 0 <= i <= |text| - |s| && OccursAt(text, s, i)
  }

  predicate OccursAt(text: string, s: string, i: int) {
    0 <= i <= |text| - |s| && text[i..i + |s|] == s
  }

  lemma SuffixAfterPrefix(prefix: string, s: string)
    ensures (prefix + s)[|prefix|..] == s
  {
  }

  // ---------------------------------------------------------------------------
  // Error messages
  // ---------------------------------------------------------------------------

  const SignUpFailedMessage: string := "회원가입에 실패했습니다."
  const SignUpFailedPrefix: string := "회원가입에 실패했습니다: "

  /** The identity-creation errors with a fixed translation. */
  const SignUpTranslations: map<string, string> := map[
    "User already registered" := "이미 가입된 이메일입니다. 로그인을 시도해주세요.",
    "Password should be at least 6 characters" := "비밀번호는 최소 6자 이상이어야 합니다.",
    "Invalid email" := "올바른 이메일 형식이 아닙니다.",
    "Email rate limit exceeded" := "너무 많은 가입 시도가 있었습니다. 잠시 후 다시 시도해주세요.",
    "Signup disabled" := "현재 회원가입이 비활성화되어 있습니다."
  ]

  /** The message thrown when identity creation fails. */
  function SignUpErrorMessage(backendMessage: string): (r: string)
    ensures backendMessage in SignUpTranslations ==> r == SignUpTranslations[backendMessage]
    ensures backendMessage !in SignUpTranslations ==>
              |r| >= |SignUpFailedPrefix| && r[..|SignUpFailedPrefix|] == SignUpFailedPrefix && r[|SignUpFailedPrefix|..] == backendMessage
  {
    if backendMessage in SignUpTranslations then SignUpTranslations[backendMessage]
    else SignUpFailedPrefix + backendMessage
  }

  /** Distinct identity-creation errors are never shown as the same message, so the
      backend's message can always be told from what the user sees. */
  lemma SignUpErrorMessageInjective(m1: string, m2: string)
    requires m1 != m2
    ensures SignUpErrorMessage(m1) != SignUpErrorMessage(m2)
  {
    var p := SignUpFailedPrefix;
    if m1 !in SignUpTranslations && m2 !in SignUpTranslations {
      SuffixAfterPrefix(p, m1);
      SuffixAfterPrefix(p, m2);
    } else if m1 in SignUpTranslations && m2 in SignUpTranslations {
    } else {
      var known := if m1 in SignUpTranslations then m1 else m2;
      var v := SignUpTranslations[known];
      assert v[0] != p[0];
    }
  }

  const SignInFailedPrefix: string := "로그인에 실패했습니다: "

  /** The sign-in errors with a fixed translation. */
  const SignInTranslations: map<string, string> := map[
    "Invalid login credentials" := "이메일 또는 비밀번호가 올바르지 않습니다.",
    "Email not confirmed" := "이메일 인증이 완료되지 않았습니다. 이메일을 확인해주세요.",
    "Too many requests" := "너무 많은 로그인 시도가 있었습니다. 잠시 후 다시 시도해주세요.",
    "User not found" := "존재하지 않는 이메일입니다.",
    "Invalid email" := "올바른 이메일 형식이 아닙니다.",
    "Password should be at least 6 characters" := "비밀번호는 최소 6자 이상이어야 합니다."
  ]

  /** A message already worded for the user: it mentions the e-mail or the password in
      Korean. */
  predicate IsLocalised(message: string) {
    Contains(message, "이메일") || Contains(message, "비밀번호")
  }

  /** The message thrown when sign-in fails: a fixed translation, an already localised
      message passed through, or any other message behind a prefix. */
  function SignInErrorMessage(backendMessage: string): (r: string)
    ensures backendMessage in SignInTranslations ==> r == SignInTranslations[backendMessage]
    ensures backendMessage !in SignInTranslations && IsLocalised(backendMessage) ==> r == backendMessage
    ensures backendMessage !in SignInTranslations && !IsLocalised(backendMessage) ==>
              |r| >= |SignInFailedPrefix| && r[..|SignInFailedPrefix|] == SignInFailedPrefix && r[|SignInFailedPrefix|..] == backendMessage
  {
    if backendMessage in SignInTranslations then SignInTranslations[backendMessage]
    else if IsLocalised(backendMessage) then backendMessage
    else SignInFailedPrefix + backendMessage
  }

  /** Outside the fixed translations the backend's text is never lost: it is the whole
      message or what follows the prefix. */
  lemma SignInKeepsUntranslatedText(backendMessage: string)
    requires backendMessage !in SignInTranslations
    ensures var r := SignInErrorMessage(backendMessage);
            |r| >= |backendMessage| && r[|r| - |backendMessage|..] == backendMessage
  {
  }

  const SchemaOutdatedMessage: string := "데이터베이스 스키마가 업데이트되지 않았습니다. 관리자에게 문의하세요."
  const DuplicateUserMessage: string := "이미 존재하는 사용자입니다."
  const ProfileFailedPrefix: string := "프로필 생성 실패: "

  /** The message thrown when the profile insert fails, chosen by the error code. */
  function ProfileErrorMessage(e: BackendError): (r: string)
    ensures e.code == Some("42703") ==> r == SchemaOutdatedMessage
    ensures e.code == Some("23505") ==> r == DuplicateUserMessage
    ensures e.code != Some("42703") && e.code != Some("23505") ==>
              |r| >= |ProfileFailedPrefix| && r[..|ProfileFailedPrefix|] == ProfileFailedPrefix && r[|ProfileFailedPrefix|..] == e.message
  {
    if e.code == Some("42703") then SchemaOutdatedMessage
    else if e.code == Some("23505") then DuplicateUserMessage
    else ProfileFailedPrefix + e.message
  }

  /** A failed profile insert (the identity already exists) is never reported with a
      message an identity-creation failure can produce. */
  lemma ProfileFailureDistinctFromIdentityFailure(e: BackendError, backendMessage: string)
    ensures ProfileErrorMessage(e) != SignUpErrorMessage(backendMessage)
    ensures ProfileErrorMessage(e) != SignUpFailedMessage
  {
    var r := ProfileErrorMessage(e);
    var s := SignUpErrorMessage(backendMessage);
    if backendMessage in SignUpTranslations {
      if r == DuplicateUserMessage {
        assert |s| >= 4 && s[3] != r[3];
      } else {
        assert s[0] != r[0];
      }
    } else {
      assert s[0] == SignUpFailedPrefix[0] != r[0];
    }
  }

  // ---------------------------------------------------------------------------
  // signUp, signOut
  // ---------------------------------------------------------------------------

  /** What `signUp` did: the identity request it sent, the profile row it inserted (if
      it got that far) and what it returned or threw. */
  datatype SignUpOutcome = SignUpOutcome(
    request: IdentityRequest,
    profileInsert: Option<ProfileRow>,
    result: Result<Identity>)

  /** `signUp`: create the identity; only when that succeeded with a user insert the
      profile row; an insert error becomes a coded message. */
  function SignUp(data: SignUpData, identity: Response<Identity>, insertError: Option<BackendError>): (r: SignUpOutcome)
    ensures r.request == IdentityRequest(data.email, data.password, data.nickname)
    ensures r.profileInsert.Some? <==> identity.error.None? && identity.data.Some?
    ensures r.profileInsert.Some? ==>
              r.profileInsert.value == ProfileRow(identity.data.value.id, data.email, data.nickname,
                                                  data.sellerExperience, data.onlinePlatforms, data.expectations)
    ensures r.result.Ok? <==> identity.error.None? && identity.data.Some? && insertError.None?
    ensures r.result.Ok? ==> r.result.value == identity.data.value
    ensures identity.error.Some? ==> r.result == Err(SignUpErrorMessage(identity.error.value.message))
    ensures identity.error.None? && identity.data.None? ==> r.result == Err(SignUpFailedMessage)
    ensures r.profileInsert.Some? && insertError.Some? ==> r.result == Err(ProfileErrorMessage(insertError.value))
  {
    var request := IdentityRequest(data.email, data.password, data.nickname);
    if identity.error.Some? then
      SignUpOutcome(request, None, Err(SignUpErrorMessage(identity.error.value.message)))
    else if identity.data.None? then
      SignUpOutcome(request, None, Err(SignUpFailedMessage))
    else
      var user := identity.data.value;
      var row := ProfileRow(user.id, data.email, data.nickname, data.sellerExperience,
                            data.onlinePlatforms, data.expectations);
      if insertError.Some? then
        SignUpOutcome(request, Some(row), Err(ProfileErrorMessage(insertError.value)))
      else
        SignUpOutcome(request, Some(row), Ok(user))
  }

  /** `signOut`: throws exactly the backend's message on failure. */
  function SignOut(error: Option<BackendError>): (r: Result<()>)
    ensures r.Ok? <==> error.None?
    ensures error.Some? ==> r == Err(error.value.message)
  {
    if error.Some? then Err(error.value.message) else Ok(())
  }

  // ---------------------------------------------------------------------------
  // getCurrentUser, getUserProfile
  // ---------------------------------------------------------------------------

  /** The user built when the profile cannot be read: identity data only. */
  function DegradedUser(user: Identity): (r: AuthUser)
    ensures r.id == user.id && r.email == user.email
    ensures r.nickname == if user.metadataNickname.Some? && user.metadataNickname.value != ""
                          then user.metadataNickname.value else "Unknown"
    ensures r.avatarUrl.None? && r.sellerExperience.None? && r.onlinePlatforms.None? && r.expectations.None?
  {
    var nickname := if user.metadataNickname.Some? && user.metadataNickname.value != ""
                    then user.metadataNickname.value else "Unknown";
    AuthUser(user.id, user.email, nickname, None, None, None, None)
  }

  /** The user built from an identity and its profile. */
  function MergedUser(user: Identity, profile: Profile): (r: AuthUser)
    ensures r.id == user.id && r.email == user.email
    ensures r.nickname == profile.nickname && r.avatarUrl == profile.avatarUrl
    ensures r.sellerExperience == profile.sellerExperience
    ensures r.onlinePlatforms == profile.onlinePlatforms && r.expectations == profile.expectations
  {
    AuthUser(user.id, user.email, profile.nickname, profile.avatarUrl,
             profile.sellerExperience, profile.onlinePlatforms, profile.expectations)
  }

  /** A call that answered with data and no error. */
  predicate Delivered<T>(a: Attempt<T>) {
    a.Completed? && a.response.error.None? && a.response.data.Some?
  }

  /** `getCurrentUser`: the session's user, then the identity, then its profile; `null`
      on any error, absence or exception, except that a profile error degrades to
      identity-only data. */
  function GetCurrentUser(session: Attempt<Identity>, user: Attempt<Identity>, profile: Attempt<Profile>): (r: Option<AuthUser>)
    ensures r.Some? ==> Delivered(session) && Delivered(user)
    ensures r.Some? ==> r.value.id == user.response.data.value.id && r.value.email == user.response.data.value.email
    ensures Delivered(session) && Delivered(user) && profile.Completed? && profile.response.error.Some? ==>
              r == Some(DegradedUser(user.response.data.value))
    ensures Delivered(session) && Delivered(user) && Delivered(profile) ==>
              r == Some(MergedUser(user.response.data.value, profile.response.data.value))
    ensures r.Some? <==> Delivered(session) && Delivered(user)
                         && profile.Completed? && (profile.response.error.Some? || profile.response.data.Some?)
  {
    if !Delivered(session) || !Delivered(user) || profile.Threw? then None
    else
      var identity := user.response.data.value;
      if profile.response.error.Some? then Some(DegradedUser(identity))
      else if profile.response.data.None? then None
      else Some(MergedUser(identity, profile.response.data.value))
  }

  /** `getUserProfile`: the profile, or `null` on an error or an empty answer. */
  function GetUserProfile(response: Response<Profile>): (r: Option<Profile>)
    ensures r.Some? <==> response.error.None? && response.data.Some?
    ensures r.Some? ==> r == response.data
  {
    if response.error.Some? || response.data.None? then None else response.data
  }
}
