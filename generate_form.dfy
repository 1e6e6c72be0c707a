/**
 * The cold-message form: its nine text fields, the single-field update
 * both dashboards use for `handleChange`, and the client-side check that
 * `GenerateMessage.handleSubmit` runs before sending (required fields
 * first, then the LinkedIn URL pattern `^https?://(www\.)?linkedin\.com/.*$`).
 */
module GenerateForm {
  import opened Wrappers
  import opened Strings
  import Js

  datatype Field =
    | TargetName | TargetRole | LinkedinUrl | Company | Experiences
    | RecentPost | Education | OtherNotes | GoalPrompt

  datatype Form = Form(
    targetName: string,
    targetRole: string,
    linkedinUrl: string,
    company: string,
    experiences: string,
    recentPost: string,
    education: string,
    otherNotes: string,
    goalPrompt: string)

  /** The form as first rendered and as reset after a successful generation. */
  const Blank := Form("", "", "", "", "", "", "", "", "")

  /** `form[name]` */
  function Get(f: Form, k: Field): string {
    match k
    case TargetName => f.targetName
    case TargetRole => f.targetRole
    case LinkedinUrl => f.linkedinUrl
    case Company => f.company
    case Experiences => f.experiences
    case RecentPost => f.recentPost
    case Education => f.education
    case OtherNotes => f.otherNotes
    case GoalPrompt => f.goalPrompt
  }

  /** `{ ...form, [name]: value }`: the named field takes the value, every other field keeps its own. */
  function With(f: Form, k: Field, v: string): (r: Form)
    ensures Get(r, k) == v
    ensures forall j :: j != k ==> Get(r, j) == Get(f, j)
  {
    match k
    case TargetName => f.(targetName := v)
    case TargetRole => f.(targetRole := v)
    case LinkedinUrl => f.(linkedinUrl := v)
    case Company => f.(company := v)
    case Experiences => f.(experiences := v)
    case RecentPost => f.(recentPost := v)
    case Education => f.(education := v)
    case OtherNotes => f.(otherNotes := v)
    case GoalPrompt => f.(goalPrompt := v)
  }

  lemma BlankIsEmpty()
    ensures forall k :: Get(Blank, k) == ""
  {
  }

  /** The four fields the form marks with an asterisk. */
  predicate IsRequired(k: Field) {
    k == TargetName || k == TargetRole || k == LinkedinUrl || k == GoalPrompt
  }

  /** Line 24: none of the required fields is the empty string. */
  predicate RequiredFilled(f: Form)
    ensures RequiredFilled(f) <==> forall k :: IsRequired(k) ==> Get(f, k) != ""
  {
    assert IsRequired(TargetName) && IsRequired(TargetRole) && IsRequired(LinkedinUrl) && IsRequired(GoalPrompt);
    f.targetName != "" && f.targetRole != "" && f.linkedinUrl != "" && f.goalPrompt != ""
  }

  // ---- The LinkedIn URL pattern, as a matcher and as a reference definition ----

  /** Remainder of `s` after the literal `lit`, if `s` starts with it. */
  function After(s: string, lit: string): (r: Option<string>)
    ensures r.Some? <==> |lit| <= |s| && s[..|lit|] == lit
    ensures r.Some? ==> s == lit + r.value
  {
    if |lit| <= |s| && s[..|lit|] == lit then
      assert s == lit + s[|lit|..];
      Some(s[|lit|..])
    else None
  }

  /** `.*$`: every remaining character is one `.` accepts. */
  predicate NoLineTerminator(s: string) {
    forall i :: 0 <= i < |s| ==> !Js.IsLineTerminator(s[i])
  }

  /** `s` is `head` followed by text free of line terminators. */
  predicate HeadThenLine(s: string, head: string) {
    StartsWith(s, head) && NoLineTerminator(s[|head|..])
  }

  const Host := "linkedin.com/"

  /** `linkedin\.com/.*$` */
  predicate MatchHost(s: string) {
    match After(s, Host)
    case None => false
    case Some(rest) => NoLineTerminator(rest)
  }

  /** `(www\.)?linkedin\.com/.*$`: the optional group tried present, then absent. */
  predicate MatchAfterScheme(s: string) {
    (match After(s, "www.") case None => false case Some(rest) => MatchHost(rest))
    || MatchHost(s)
  }

  /** `^https?://(www\.)?linkedin\.com/.*$`, consumed left to right as the regular expression engine does. */
  predicate MatchesLinkedInUrl(u: string)
    ensures MatchesLinkedInUrl(u) ==> StartsWith(u, "http") && |u| >= |"http://" + Host|
  {
    match After(u, "http")
    case None => false
    case Some(r1) =>
      (match After(r1, "s://") case None => false case Some(r2) => MatchAfterScheme(r2))
      || (match After(r1, "://") case None => false case Some(r2) => MatchAfterScheme(r2))
  }

  function SchemeHead(secure: bool): string {
    if secure then "https://" else "http://"
  }

  function WwwHead(www: bool): string {
    if www then "www." else ""
  }

  /** The fixed head of an accepted URL, for each choice of scheme and `www.`. */
  function UrlHead(secure: bool, www: bool): string {
    SchemeHead(secure) + WwwHead(www) + Host
  }

  /**
   * Reference definition: the URL is one of the four heads followed by any
   * text free of line terminators.
   */
  ghost predicate IsLinkedInUrl(u: string) {
    exists secure: bool, www: bool :: HeadThenLine(u, UrlHead(secure, www))
  }

  /** Starting with `a + b` is starting with `a` and then with `b`. */
  lemma StartsWithConcat(s: string, a: string, b: string)
    ensures StartsWith(s, a + b) <==> StartsWith(s, a) && StartsWith(s[|a|..], b)
    ensures StartsWith(s, a + b) ==> s[|a + b|..] == s[|a|..][|b|..]
  {
    if StartsWith(s, a + b) {
      assert s[..|a|] == (a + b)[..|a|] == a;
      assert s[|a|..][..|b|] == s[..|a + b|][|a|..] == b;
    }
    if StartsWith(s, a) && StartsWith(s[|a|..], b) {
      assert s[..|a + b|] == s[..|a|] + s[|a|..][..|b|];
    }
  }

  lemma HeadThenLineConcat(s: string, a: string, b: string)
    ensures HeadThenLine(s, a + b) <==> StartsWith(s, a) && HeadThenLine(s[|a|..], b)
  {
    StartsWithConcat(s, a, b);
  }

  lemma MatchHostIff(s: string)
    ensures MatchHost(s) <==> HeadThenLine(s, Host)
  {
  }

  /** The optional group: present or absent. */
  lemma MatchAfterSchemeIff(s: string)
    ensures MatchAfterScheme(s) <==> HeadThenLine(s, WwwHead(true) + Host) || HeadThenLine(s, WwwHead(false) + Host)
  {
    assert WwwHead(false) + Host == Host;
    MatchHostIff(s);
    HeadThenLineConcat(s, "www.", Host);
    if StartsWith(s, "www.") {
      MatchHostIff(s[4..]);
    }
  }

  /** The optional `s` of the scheme. */
  lemma MatchesIff(u: string)
    ensures MatchesLinkedInUrl(u) <==>
      || (StartsWith(u, SchemeHead(true)) && MatchAfterScheme(u[8..]))
      || (StartsWith(u, SchemeHead(false)) && MatchAfterScheme(u[7..]))
  {
    StartsWithConcat(u, "http", "s://");
    StartsWithConcat(u, "http", "://");
    assert "http" + "s://" == SchemeHead(true);
    assert "http" + "://" == SchemeHead(false);
  }

  lemma UrlHeadSplit(secure: bool, www: bool)
    ensures UrlHead(secure, www) == SchemeHead(secure) + (WwwHead(www) + Host)
  {
  }

  /** One scheme: the rest of the matcher accepts exactly the two heads with that scheme. */
  lemma SchemeBranch(u: string, secure: bool)
    ensures StartsWith(u, SchemeHead(secure)) && MatchAfterScheme(u[|SchemeHead(secure)|..]) <==>
      HeadThenLine(u, UrlHead(secure, true)) || HeadThenLine(u, UrlHead(secure, false))
  {
    var scheme := SchemeHead(secure);
    UrlHeadSplit(secure, true);
    UrlHeadSplit(secure, false);
    HeadThenLineConcat(u, scheme, WwwHead(true) + Host);
    HeadThenLineConcat(u, scheme, WwwHead(false) + Host);
    if StartsWith(u, scheme) {
      MatchAfterSchemeIff(u[|scheme|..]);
    }
  }

  /** The reference definition spelled out over its four heads. */
  lemma PatternFourHeads(u: string)
    ensures IsLinkedInUrl(u) <==>
      || HeadThenLine(u, UrlHead(true, true)) || HeadThenLine(u, UrlHead(true, false))
      || HeadThenLine(u, UrlHead(false, true)) || HeadThenLine(u, UrlHead(false, false))
  {
  }

  /** Matcher and reference definition accept the same URLs. */
  lemma MatcherIsPattern(u: string)
    ensures MatchesLinkedInUrl(u) <==> IsLinkedInUrl(u)
  {
    MatchesIff(u);
    SchemeBranch(u, true);
    SchemeBranch(u, false);
    PatternFourHeads(u);
  }

  /** Without the slash after the host the pattern does not match. */
  lemma RejectsHostWithoutSlash()
    ensures !IsLinkedInUrl("https://linkedin.com")
  {
    var u := "https://linkedin.com";
    forall secure: bool, www: bool ensures !HeadThenLine(u, UrlHead(secure, www)) {
      var head := UrlHead(secure, www);
      if !secure {
        assert u[4] != head[4];
      } else if www {
        assert u[8] != head[8];
      } else {
        assert |head| > |u|;
      }
    }
  }

  /** Only `www.` may precede the host: a country subdomain is refused. */
  lemma RejectsCountrySubdomain()
    ensures !IsLinkedInUrl("https://uk.linkedin.com/x")
  {
    var u := "https://uk.linkedin.com/x";
    forall secure: bool, www: bool ensures !HeadThenLine(u, UrlHead(secure, www)) {
      var head := UrlHead(secure, www);
      if !secure {
        assert u[4] != head[4];
      } else {
        assert u[8] != head[8];
      }
    }
  }

  /** A line break anywhere after the host makes the whole URL fail. */
  lemma RejectsLineBreak()
    ensures !IsLinkedInUrl("https://linkedin.com/in/x\ny")
  {
    var u := "https://linkedin.com/in/x\ny";
    forall secure: bool, www: bool ensures !HeadThenLine(u, UrlHead(secure, www)) {
      var head := UrlHead(secure, www);
      if !secure {
        assert u[4] != head[4];
      } else if www {
        assert u[8] != head[8];
      } else {
        assert |head| == 21;
        assert u[21..][4] == '\n';
      }
    }
  }

  lemma AcceptsProfileUrls()
    ensures IsLinkedInUrl("https://www.linkedin.com/in/jane-doe")
    ensures IsLinkedInUrl("http://linkedin.com/")
  {
    var u1 := "https://www.linkedin.com/in/jane-doe";
    assert u1[..|UrlHead(true, true)|] == UrlHead(true, true);
    assert HeadThenLine(u1, UrlHead(true, true));
    var u2 := "http://linkedin.com/";
    assert u2[..|UrlHead(false, false)|] == UrlHead(false, false);
    assert HeadThenLine(u2, UrlHead(false, false));
  }

  // ---- The client-side check of handleSubmit ----

  const RequiredFieldsMissing := "Please fill in all required fields"
  const InvalidLinkedInUrl := "Please enter a valid LinkedIn URL"
  /** What both generate forms show when the `/generate` request fails. */
  const CouldNotGenerate := "Could not generate message. Please try again."

  /**
   * Lines 24-33: the error `handleSubmit` shows, or None when the form may
   * be sent. The required-field check comes first, so a form failing both
   * checks reports the missing fields.
   */
  function Validate(f: Form): (r: Option<string>)
    ensures r.None? <==> RequiredFilled(f) && IsLinkedInUrl(f.linkedinUrl)
    ensures !RequiredFilled(f) ==> r == Some(RequiredFieldsMissing)
    ensures RequiredFilled(f) && !IsLinkedInUrl(f.linkedinUrl) ==> r == Some(InvalidLinkedInUrl)
  {
    MatcherIsPattern(f.linkedinUrl);
    if !RequiredFilled(f) then Some(RequiredFieldsMissing)
    else if !MatchesLinkedInUrl(f.linkedinUrl) then Some(InvalidLinkedInUrl)
    else None
  }
}
