/**
 * The input checks of RegisterUser (validateRegisterUserInput in
 * usecase/user_usecase.go), including the e-mail pattern
 * ^[a-zA-Z0-9._%+-]+@[a-zA-Z0-9.-]+\.[a-zA-Z]{2,}$ written out as a split
 * into local part, '@', domain, '.', and top-level domain.
 */
module Validation {
  import opened Wrappers
  import opened Errors
  import opened Seqs

  const GeneratorRole: string := "generator"
  const ContributorRole: string := "contributor"

  /** The payload the use case receives (RegisterUserInput). */
  datatype RegisterUserInput = RegisterUserInput(email: string, password: string, role: string, referralCode: string)

  /** The two roles a validated input can name. */
  datatype RoleKind = Generator | Contributor

  function RoleName(k: RoleKind): string
  {
    match k
    case Generator => GeneratorRole
    case Contributor => ContributorRole
  }

  predicate IsLetter(c: char)
  {
    ('a' <= c <= 'z') || ('A' <= c <= 'Z')
  }

  predicate IsLetterOrDigit(c: char)
  {
    IsLetter(c) || ('0' <= c <= '9')
  }

  /** [a-zA-Z0-9._%+-] */
  predicate IsLocalChar(c: char)
  {
    IsLetterOrDigit(c) || c == '.' || c == '_' || c == '%' || c == '+' || c == '-'
  }

  /** [a-zA-Z0-9.-] */
  predicate IsDomainChar(c: char)
  {
    IsLetterOrDigit(c) || c == '.' || c == '-'
  }

  predicate IsLocalPart(s: string)
  {
    |s| > 0 && forall i :: 0 <= i < |s| ==> IsLocalChar(s[i])
  }

  predicate IsDomainPart(s: string)
  {
    |s| > 0 && forall i :: 0 <= i < |s| ==> IsDomainChar(s[i])
  }

  predicate IsTopLevelDomain(s: string)
  {
    |s| >= 2 && forall i :: 0 <= i < |s| ==> IsLetter(s[i])
  }

  /** `s` reads local@domain.tld with the '@' at `at` and the '.' at `dot`. */
  predicate SplitsAt(s: string, at: int, dot: int)
  {
    0 <= at < dot < |s| && s[at] == '@' && s[dot] == '.' &&
    IsLocalPart(s[..at]) && IsDomainPart(s[at + 1..dot]) && IsTopLevelDomain(s[dot + 1..])
  }

  /** The strings the e-mail pattern matches: some split local@domain.tld exists. */
  ghost predicate MatchesEmailPattern(s: string)
  {
    exists at, dot :: SplitsAt(s, at, dot)
  }

  predicate IsAt(c: char)
  {
    c == '@'
  }

  predicate IsDot(c: char)
  {
    c == '.'
  }

  /**
   * A string the pattern matches splits only at its first '@' (the local
   * part has none) and its last '.' (the top-level domain has none).
   */
  lemma SplitIsAtFirstAtAndLastDot(s: string)
    ensures forall at, dot :: SplitsAt(s, at, dot) ==>
      FirstIndex(s, IsAt) == Some(at) && LastIndex(s, IsDot) == Some(dot)
  {
    forall at, dot | SplitsAt(s, at, dot)
      ensures FirstIndex(s, IsAt) == Some(at) && LastIndex(s, IsDot) == Some(dot)
    {
      assert forall j :: 0 <= j < at ==> s[j] == s[..at][j];
      FirstIndexIs(s, IsAt, at);
      assert forall j :: dot < j < |s| ==> s[j] == s[dot + 1..][j - dot - 1];
      LastIndexIs(s, IsDot, dot);
    }
  }

  /**
   * The check the use case runs, as a split at the first '@' and the last
   * '.': it accepts exactly the strings the pattern matches.
   */
  function IsValidEmail(s: string): (ok: bool)
    ensures ok <==> MatchesEmailPattern(s)
  {
    SplitIsAtFirstAtAndLastDot(s);
    match (FirstIndex(s, IsAt), LastIndex(s, IsDot))
    case (Some(at), Some(dot)) => SplitsAt(s, at, dot)
    case _ => false
  }

  lemma BadEmailIsRejected()
    ensures !MatchesEmailPattern("bad-email")
  {
    assert FirstIndex("bad-email", IsAt).None?;
    assert !IsValidEmail("bad-email");
  }

  lemma WellFormedEmailIsAccepted()
    ensures MatchesEmailPattern("test@example.com")
  {
    var s := "test@example.com";
    assert s[..4] == "test" && s[5..12] == "example" && s[13..] == "com";
    assert SplitsAt(s, 4, 12);
  }

  /** Every field check passes. */
  ghost predicate Acceptable(req: RegisterUserInput)
  {
    && req.email != "" && req.password != ""
    && MatchesEmailPattern(req.email)
    && (req.role == GeneratorRole || req.role == ContributorRole)
    && (req.role == ContributorRole ==> req.referralCode != "")
  }

  /** The six checks in order; the first that fails decides the error. */
  function ValidateRegisterUserInput(req: RegisterUserInput): (r: Result<RoleKind, Error>)
    ensures r.Ok? <==> Acceptable(req)
    ensures r.Ok? ==> RoleName(r.value) == req.role
    ensures r.Err? ==> r.error in {EmailRequired, PasswordRequired, RoleRequired, InvalidEmail, InvalidRole, ReferralCodeRequired}
  {
    if req.email == "" then Err(EmailRequired)
    else if req.password == "" then Err(PasswordRequired)
    else if req.role == "" then Err(RoleRequired)
    else if !IsValidEmail(req.email) then Err(InvalidEmail)
    else if req.role != GeneratorRole && req.role != ContributorRole then Err(InvalidRole)
    else if req.role == ContributorRole && req.referralCode == "" then Err(ReferralCodeRequired)
    else Ok(if req.role == GeneratorRole then Generator else Contributor)
  }

  /** Each error is reported exactly when its check fails and every earlier check passed. */
  lemma FirstFailingCheckDecides(req: RegisterUserInput)
    ensures ValidateRegisterUserInput(req) == Err(EmailRequired) <==> req.email == ""
    ensures ValidateRegisterUserInput(req) == Err(PasswordRequired) <==> req.email != "" && req.password == ""
    ensures ValidateRegisterUserInput(req) == Err(RoleRequired) <==>
      req.email != "" && req.password != "" && req.role == ""
    ensures ValidateRegisterUserInput(req) == Err(InvalidEmail) <==>
      req.email != "" && req.password != "" && req.role != "" && !MatchesEmailPattern(req.email)
    ensures ValidateRegisterUserInput(req) == Err(InvalidRole) <==>
      req.email != "" && req.password != "" && req.role != "" && MatchesEmailPattern(req.email) &&
      req.role != GeneratorRole && req.role != ContributorRole
    ensures ValidateRegisterUserInput(req) == Err(ReferralCodeRequired) <==>
      req.email != "" && req.password != "" && MatchesEmailPattern(req.email) &&
      req.role == ContributorRole && req.referralCode == ""
  {
  }
}
