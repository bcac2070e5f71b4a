/**
 * src/utils/formatters.ts: turning API URLs into web URLs, describing notification
 * reasons, rendering notifications and thread subscriptions as text, and building the
 * tool responses. Records from the API are JSON values read with JavaScript's property
 * semantics; a rendering that would raise a TypeError (a property of `null` or
 * `undefined`, `.replace` on a non-string) yields `None`.
 */
module Formatters {
  import opened Wrappers
  import opened Text
  import opened Js

  // ---- convertApiUrlToHtmlUrl ----

  /** The characters that end a line for `.` in a regular expression. */
  predicate IsLineTerminator(c: char) {
    c == '\n' || c == '\r' || c == '\U{2028}' || c == '\U{2029}'
  }

  /** `\/pulls\/([0-9]+)` matches at `i`. */
  predicate PullsAt(s: string, i: nat) {
    i + 8 <= |s| && s[i..i + 7] == "/pulls/" && IsDigit(s[i + 7])
  }

  /** Where `.*` starting at `from` stops: the first line terminator, or the end. */
  function LineEnd(s: string, from: nat): (e: nat)
    requires from <= |s|
    ensures from <= e <= |s|
    decreases |s| - from
  {
    if from == |s| || IsLineTerminator(s[from]) then from else LineEnd(s, from + 1)
  }

  /** The line ends at the first terminator at or after `from`. */
  lemma {:induction false} LineEndIsFirstTerminator(s: string, from: nat)
    requires from <= |s|
    ensures forall k :: from <= k < LineEnd(s, from) ==> !IsLineTerminator(s[k])
    ensures LineEnd(s, from) < |s| ==> IsLineTerminator(s[LineEnd(s, from)])
    decreases |s| - from
  {
    if from < |s| && !IsLineTerminator(s[from]) {
      LineEndIsFirstTerminator(s, from + 1);
    }
  }

  /**
   * `s.replace(/\/pulls\/([0-9]+)(\/?.*)/g, "/pull/$1$2")`: scanning left to right, each
   * match runs to the end of its line, and `/pulls/` becomes `/pull/`.
   */
  function FixPulls(s: string): string
    decreases |s|
  {
    if s == [] then ""
    else if PullsAt(s, 0) then
      var e := MatchEnd(s);
      "/pull/" + s[7..e] + FixPulls(s[e..])
    else
      [s[0]] + FixPulls(s[1..])
  }

  /** Where a match at the start of `s` ends: past the digits, at the end of the line. */
  function MatchEnd(s: string): (e: nat)
    requires PullsAt(s, 0)
    ensures 8 <= e <= |s| && e == LineEnd(s, 0)
  {
    assert forall k :: 0 <= k < 8 ==> !IsLineTerminator(s[k]) by {
      assert s[..7] == "/pulls/";
      assert forall k :: 0 <= k < 7 ==> s[k] == "/pulls/"[k];
    }
    LineEndIsFirstTerminator(s, 0);
    LineEnd(s, 0)
  }

  /** The rewriting only drops characters: everything in the output was in the input. */
  lemma {:induction false} FixPullsChars(s: string)
    ensures forall c :: c in FixPulls(s) ==> c in s
    decreases |s|
  {
    if s != [] {
      if PullsAt(s, 0) {
        var e := MatchEnd(s);
        FixPullsChars(s[e..]);
        assert s[..7] == "/pulls/";
        assert s[0] == '/' && s[1] == 'p' && s[2] == 'u' && s[3] == 'l';
        assert forall c :: c in s[7..e] ==> c in s;
        assert forall c :: c in s[e..] ==> c in s;
      } else {
        FixPullsChars(s[1..]);
      }
    }
  }

  const ApiReposHost: string := "api.github.com/repos"

  /** `convertApiUrlToHtmlUrl`: a text with neither the API host nor a pull-request number is left as it is. */
  function ConvertApiUrlToHtmlUrl(apiUrl: string): (html: string)
    ensures !Includes(apiUrl, ApiReposHost) && (forall i: nat :: !PullsAt(apiUrl, i)) ==> html == apiUrl
  {
    FixPullsUnmatched(apiUrl);
    FixPulls(ReplaceFirst(apiUrl, ApiReposHost, "github.com"))
  }

  // ---- lemmas about the URL rewriting ----

  lemma Assoc(a: string, b: string, c: string)
    ensures a + b + c == a + (b + c)
  {
  }

  lemma PullsAtTail(c: char, t: string, i: nat)
    ensures PullsAt(t, i) <==> PullsAt([c] + t, i + 1)
  {
    var s := [c] + t;
    if i + 8 <= |t| {
      assert s[i + 1..i + 8] == t[i..i + 7];
      assert s[i + 8] == t[i + 7];
    }
  }

  /** Without a match at the start, the first character is copied. */
  lemma FixPullsStep(c: char, t: string)
    requires !PullsAt([c] + t, 0)
    ensures FixPulls([c] + t) == [c] + FixPulls(t)
  {
    assert ([c] + t)[1..] == t;
  }

  /** A text with no match is left as it is. */
  lemma {:induction false} FixPullsNoMatch(s: string)
    requires forall i: nat :: !PullsAt(s, i)
    ensures FixPulls(s) == s
    decreases |s|
  {
    if s != [] {
      var t := s[1..];
      assert s == [s[0]] + t;
      forall i: nat ensures !PullsAt(t, i) {
        PullsAtTail(s[0], t, i);
      }
      FixPullsNoMatch(t);
      FixPullsStep(s[0], t);
    }
  }

  lemma FixPullsUnmatched(s: string)
    ensures (forall i: nat :: !PullsAt(s, i)) ==> FixPulls(s) == s
  {
    if forall i: nat :: !PullsAt(s, i) {
      FixPullsNoMatch(s);
    }
  }

  /** On one line, only the first match is rewritten and the rest of the line is kept. */
  lemma {:induction false} FixPullsSingleLine(s: string, i: nat)
    requires forall k :: 0 <= k < |s| ==> !IsLineTerminator(s[k])
    requires PullsAt(s, i) && forall j: nat :: j < i ==> !PullsAt(s, j)
    ensures FixPulls(s) == s[..i] + "/pull/" + s[i + 7..]
    decreases i
  {
    if i == 0 {
      LineEndIsFirstTerminator(s, 0);
      assert MatchEnd(s) == |s|;
      assert s[|s|..] == [];
      assert s[..0] + "/pull/" + s[7..] == "/pull/" + s[7..|s|] + [];
    } else {
      var t := s[1..];
      assert s == [s[0]] + t;
      forall j: nat | j < i - 1 ensures !PullsAt(t, j) {
        PullsAtTail(s[0], t, j);
      }
      PullsAtTail(s[0], t, i - 1);
      FixPullsSingleLine(t, i - 1);
      FixPullsStep(s[0], t);
      assert t[..i - 1] + "/pull/" + t[i - 1 + 7..] == t[..i - 1] + ("/pull/" + s[i + 7..]);
      assert s[..i] == [s[0]] + t[..i - 1];
      Assoc([s[0]], t[..i - 1], "/pull/" + s[i + 7..]);
      Assoc(s[..i], "/pull/", s[i + 7..]);
    }
  }

  /** No `/` in `a` is followed by a `p`, so no match starts inside `a`. */
  predicate NoMatchStart(a: string) {
    forall i :: 0 <= i < |a| && a[i] == '/' ==> i + 1 < |a| && a[i + 1] != 'p'
  }

  lemma NoPullsAtStart(a: string, b: string)
    requires a != [] && NoMatchStart(a)
    ensures !PullsAt(a + b, 0)
  {
    var s := a + b;
    if |s| >= 8 && a[0] == '/' {
      assert s[1] == a[1] != 'p';
      assert s[..7][1] != "/pulls/"[1];
    } else if |s| >= 8 {
      assert s[..7][0] != "/pulls/"[0];
    }
  }

  /** A prefix in which no match starts is copied unchanged. */
  lemma {:induction false} FixPullsSkip(a: string, b: string)
    requires NoMatchStart(a)
    ensures FixPulls(a + b) == a + FixPulls(b)
    decreases |a|
  {
    if a != [] {
      NoPullsAtStart(a, b);
      assert a + b == [a[0]] + (a[1..] + b);
      FixPullsStep(a[0], a[1..] + b);
      assert NoMatchStart(a[1..]) by {
        forall i | 0 <= i < |a[1..]| && a[1..][i] == '/' ensures i + 1 < |a[1..]| && a[1..][i + 1] != 'p' {
          assert a[i + 1] == '/';
        }
      }
      FixPullsSkip(a[1..], b);
      Assoc([a[0]], a[1..], FixPulls(b));
      assert [a[0]] + a[1..] == a;
    } else {
      assert a + b == b;
    }
  }

  /** `apiUrl.replace("api.github.com/repos", "github.com")` on an API URL replaces the host after the scheme. */
  lemma ReplaceHost(tail: string)
    ensures ReplaceFirst("https://api.github.com/repos" + tail, ApiReposHost, "github.com") == "https://github.com" + tail
  {
    var scheme := "https://";
    var s := scheme + ApiReposHost + tail;
    assert s == "https://api.github.com/repos" + tail;
    assert s[8..28] == ApiReposHost;
    forall j: nat | j < 8 ensures !OccursAt(s, ApiReposHost, j) {
      assert s[j] == scheme[j];
      MismatchAt(s, ApiReposHost, j);
    }
    assert s[..8] == scheme && s[28..] == tail;
    assert scheme + "github.com" + tail == "https://github.com" + tail;
  }

  /** The web host's own slashes start no match. */
  lemma FixPullsWebHost(tail: string)
    ensures FixPulls("https://github.com" + tail) == "https://github.com" + FixPulls(tail)
  {
    var w := "https://github.com";
    assert NoMatchStart(w) by {
      forall i | 0 <= i < |w| && w[i] == '/' ensures i + 1 < |w| && w[i + 1] != 'p' {
        assert i == 6 || i == 7;
      }
    }
    FixPullsSkip(w, tail);
  }

  /** An API URL keeps its path and changes host; the path is then rewritten. */
  lemma ConvertedHost(tail: string)
    ensures ConvertApiUrlToHtmlUrl("https://api.github.com/repos" + tail) == "https://github.com" + FixPulls(tail)
  {
    ReplaceHost(tail);
    FixPullsWebHost(tail);
  }

  /** `/` followed by a slash-free segment and a slash starts a match only for the segment `pulls` before digits. */
  lemma SegmentNoMatch(seg: string, after: string)
    requires seg != "" && '/' !in seg && after != [] && after[0] == '/'
    requires seg == "pulls" ==> !(|after| >= 2 && IsDigit(after[1]))
    ensures !PullsAt("/" + seg + after, 0)
  {
    var s := "/" + seg + after;
    var p := "/pulls/";
    if |s| >= 8 {
      if |seg| >= 6 {
        assert s[6] == seg[5] && p[6] == '/';
        assert s[..7][6] != p[6];
      } else if |seg| != 5 {
        assert s[1 + |seg|] == '/' && p[1 + |seg|] != '/';
        assert s[..7][1 + |seg|] != p[1 + |seg|];
      } else if seg != "pulls" {
        assert s[..7][1..6] == seg;
        assert p[1..6] == "pulls";
      } else {
        assert s[7] == after[1];
      }
    }
  }

  /** Such a segment is copied unchanged. */
  lemma FixPullsSegment(seg: string, after: string)
    requires seg != "" && '/' !in seg && after != [] && after[0] == '/'
    requires seg == "pulls" ==> !(|after| >= 2 && IsDigit(after[1]))
    ensures FixPulls("/" + seg + after) == "/" + seg + FixPulls(after)
  {
    assert NoMatchStart(seg);
    Assoc("/", seg, after);
    Assoc("/", seg, FixPulls(after));
    SegmentNoMatch(seg, after);
    FixPullsStep('/', seg + after);
    FixPullsSkip(seg, after);
  }

  /** The match at the number runs to the end of the line. */
  lemma PullsRewrite(d: string)
    requires d != [] && IsDigit(d[0])
    requires forall k :: 0 <= k < |d| ==> !IsLineTerminator(d[k])
    ensures FixPulls("/pulls/" + d) == "/pull/" + d
  {
    var s := "/pulls/" + d;
    assert s[..7] == "/pulls/" && s[7] == d[0];
    forall k | 0 <= k < |s| ensures !IsLineTerminator(s[k]) {
      if k < 7 {
        assert s[k] == "/pulls/"[k];
      } else {
        assert s[k] == d[k - 7];
      }
    }
    FixPullsSingleLine(s, 0);
    assert s[7..] == d;
    assert s[..0] == [];
  }

  /**
   * A pull-request URL becomes the web URL with `/pull/`, keeping the segments after the
   * number. An owner called `pulls` followed by a repository starting with a digit would
   * itself be taken for a pull-request number, so that case is excluded.
   */
  lemma ConvertPullRequestUrl(owner: string, repo: string, number: string, rest: string)
    requires owner != "" && '/' !in owner && repo != "" && '/' !in repo
    requires number != "" && forall k :: 0 <= k < |number| ==> IsDigit(number[k])
    requires forall k :: 0 <= k < |rest| ==> !IsLineTerminator(rest[k])
    requires owner == "pulls" ==> !IsDigit(repo[0])
    ensures ConvertApiUrlToHtmlUrl("https://api.github.com/repos" + ("/" + owner + ("/" + repo + ("/pulls/" + number + rest))))
         == "https://github.com" + ("/" + owner + ("/" + repo + ("/pull/" + number + rest)))
  {
    var afterRepo := "/pulls/" + number + rest;
    var afterOwner := "/" + repo + afterRepo;
    var tail := "/" + owner + afterOwner;
    assert FixPulls(afterRepo) == "/pull/" + number + rest by {
      NumberThenRest(number, rest);
      Assoc("/pulls/", number, rest);
      Assoc("/pull/", number, rest);
      PullsRewrite(number + rest);
    }
    assert FixPulls(afterOwner) == "/" + repo + FixPulls(afterRepo) by {
      FixPullsSegment(repo, afterRepo);
    }
    assert FixPulls(tail) == "/" + owner + FixPulls(afterOwner) by {
      FixPullsSegment(owner, afterOwner);
    }
    ConvertedHost(tail);
  }

  lemma NumberThenRest(number: string, rest: string)
    requires number != "" && forall k :: 0 <= k < |number| ==> IsDigit(number[k])
    requires forall k :: 0 <= k < |rest| ==> !IsLineTerminator(rest[k])
    ensures IsDigit((number + rest)[0])
    ensures forall k :: 0 <= k < |number + rest| ==> !IsLineTerminator((number + rest)[k])
  {
    var d := number + rest;
    forall k | 0 <= k < |d| ensures !IsLineTerminator(d[k]) {
      if k < |number| {
        assert d[k] == number[k];
      } else {
        assert d[k] == rest[k - |number|];
      }
    }
  }

  /** URLs without a pull-request number (issues, repositories) only change host. */
  lemma ConvertWithoutPullRequest(tail: string)
    requires forall i: nat :: !PullsAt(tail, i)
    ensures ConvertApiUrlToHtmlUrl("https://api.github.com/repos" + tail) == "https://github.com" + tail
  {
    ConvertedHost(tail);
    FixPullsNoMatch(tail);
  }

  // ---- describeReason ----

  // The description texts of the `descriptions` record.
  const ApprovalRequestedText := "You were requested to review and approve a deployment"
  const AssignText := "You were assigned to the issue"
  const AuthorText := "You created the thread"
  const CommentText := "You commented on the thread"
  const CiActivityText := "A GitHub Actions workflow run that you triggered was completed"
  const InvitationText := "You accepted an invitation to contribute to the repository"
  const ManualText := "You subscribed to the thread"
  const MemberFeatureRequestedText := "Organization members have requested to enable a feature"
  const MentionText := "You were @mentioned in the content"
  const ReviewRequestedText := "You were requested to review a pull request"
  const SecurityAlertText := "GitHub discovered a security vulnerability in your repository"
  const SecurityAdvisoryCreditText := "You were credited for contributing to a security advisory"
  const StateChangeText := "You changed the thread state"
  const SubscribedText := "You're watching the repository"
  const TeamMentionText := "You were on a team that was mentioned"

  /** The `descriptions` record, entry by entry. */
  const Descriptions: seq<(string, string)> := [
    ("approval_requested", ApprovalRequestedText),
    ("assign", AssignText),
    ("author", AuthorText),
    ("comment", CommentText),
    ("ci_activity", CiActivityText),
    ("invitation", InvitationText),
    ("manual", ManualText),
    ("member_feature_requested", MemberFeatureRequestedText),
    ("mention", MentionText),
    ("review_requested", ReviewRequestedText),
    ("security_alert", SecurityAlertText),
    ("security_advisory_credit", SecurityAdvisoryCreditText),
    ("state_change", StateChangeText),
    ("subscribed", SubscribedText),
    ("team_mention", TeamMentionText)]

  /** `record[key]` on a record with the given entries; `None` is `undefined`. */
  function Lookup(entries: seq<(string, string)>, key: string): (d: Option<string>)
    ensures d.Some? ==> exists i :: 0 <= i < |entries| && entries[i] == (key, d.value)
    ensures d.None? <==> forall i :: 0 <= i < |entries| ==> entries[i].0 != key
  {
    if entries == [] then None
    else if entries[0].0 == key then Some(entries[0].1)
    else
      var d := Lookup(entries[1..], key);
      assert forall i :: 1 <= i < |entries| ==> entries[1..][i - 1] == entries[i];
      d
  }

  const UnknownReason: string := "Unknown reason"

  /**
   * `descriptions[reason] || "Unknown reason"`. Every table text is a real description, so
   * the fallback appears exactly for keys outside the table; every answer is one line.
   */
  function DescribeReason(reason: string): (d: string)
    ensures Lookup(Descriptions, reason).Some? ==> d == Lookup(Descriptions, reason).value
    ensures d == UnknownReason <==> forall i :: 0 <= i < |Descriptions| ==> Descriptions[i].0 != reason
    ensures NoLineBreak(d)
  {
    DescriptionsAreLong();
    DescriptionsSingleLine();
    var d := Lookup(Descriptions, reason);
    if d.Some? && d.value != "" then d.value else UnknownReason
  }

  lemma DescriptionsAreLong()
    ensures forall i | 0 <= i < |Descriptions| :: |Descriptions[i].1| > |UnknownReason|
  {
  }

  /** Every description is one line. */
  lemma DescriptionsSingleLine()
    ensures forall i | 0 <= i < |Descriptions| :: NoLineBreak(Descriptions[i].1)
  {
    ApprovalRequestedSingleLine();
    CiActivitySingleLine();
    InvitationSingleLine();
    MemberFeatureRequestedSingleLine();
    ReviewRequestedSingleLine();
    SecurityAlertSingleLine();
    SecurityAdvisoryCreditSingleLine();
    assert |Descriptions| == 15;
  }

  // The solver reads a long literal more easily as two halves, each proved on its own.

  lemma ApprovalRequestedHalves()
    ensures ApprovalRequestedText == "You were requested to revi" + "ew and approve a deployment"
  {
  }

  lemma ApprovalRequestedSingleLine()
    ensures NoLineBreak(ApprovalRequestedText)
  {
    ApprovalRequestedHalves();
  }

  lemma CiActivityHalves()
    ensures CiActivityText == "A GitHub Actions workflow run t" + "hat you triggered was completed"
  {
  }

  lemma CiActivitySingleLine()
    ensures NoLineBreak(CiActivityText)
  {
    CiActivityHalves();
  }

  lemma InvitationHalves()
    ensures InvitationText == "You accepted an invitation to" + " contribute to the repository"
  {
  }

  lemma InvitationSingleLine()
    ensures NoLineBreak(InvitationText)
  {
    InvitationHalves();
  }

  lemma MemberFeatureRequestedHalves()
    ensures MemberFeatureRequestedText == "Organization members have r" + "equested to enable a feature"
  {
  }

  lemma MemberFeatureRequestedSingleLine()
    ensures NoLineBreak(MemberFeatureRequestedText)
  {
    MemberFeatureRequestedHalves();
  }

  lemma ReviewRequestedHalves()
    ensures ReviewRequestedText == "You were requested to" + " review a pull request"
  {
  }

  lemma ReviewRequestedSingleLine()
    ensures NoLineBreak(ReviewRequestedText)
  {
    ReviewRequestedHalves();
  }

  lemma SecurityAlertHalves()
    ensures SecurityAlertText == "GitHub discovered a security v" + "ulnerability in your repository"
  {
  }

  lemma SecurityAlertSingleLine()
    ensures NoLineBreak(SecurityAlertText)
  {
    SecurityAlertHalves();
  }

  lemma SecurityAdvisoryCreditHalves()
    ensures SecurityAdvisoryCreditText == "You were credited for contri" + "buting to a security advisory"
  {
  }

  lemma SecurityAdvisoryCreditSingleLine()
    ensures NoLineBreak(SecurityAdvisoryCreditText)
  {
    SecurityAdvisoryCreditHalves();
  }

  // ---- formatError and the responses ----

  /** `formatError(message, error)`. */
  function FormatError(message: string, error: Thrown): (text: string)
    ensures StartsWith(text, message + ": ")
    ensures error.ErrorObject? ==> text == message + ": " + error.message
    ensures error.ThrownString? ==> text == message + ": " + error.s
    ensures error.ThrownOther? ==> text == message + ": Unknown error"
  {
    var detail := match error
      case ErrorObject(m) => m
      case ThrownString(s) => s
      case ThrownOther => "Unknown error";
    StartsWithConcat(message + ": ", detail, message + ": ");
    message + ": " + detail
  }

  /** `ToolResponse`: `isError` (absent when `None`) and the texts of the `{ type: "text" }` items. */
  datatype ToolResponse = ToolResponse(isError: Option<bool>, content: seq<string>)

  function SuccessResponse(text: string): (r: ToolResponse)
    ensures r.isError.None? && r.content == [text]
  {
    ToolResponse(None, [text])
  }

  function ErrorResponse(message: string, error: Thrown): (r: ToolResponse)
    ensures r.isError == Some(true) && |r.content| == 1
    ensures r.content[0] == FormatError(message, error)
  {
    ToolResponse(Some(true), [FormatError(message, error)])
  }

  /** A response is an error response exactly when `isError` is set; both kinds carry one text. */
  predicate IsErrorResponse(r: ToolResponse) { r.isError == Some(true) }

  /** An error response is a single text that opens with `prefix` and `: `. */
  predicate ReportedUnder(r: ToolResponse, prefix: string) {
    IsErrorResponse(r) ==> |r.content| == 1 && StartsWith(r.content[0], prefix + ": ")
  }

  /** The two helpers never produce the same response, and an error's text contains both parts. */
  lemma ResponsesDiffer(text: string, message: string, error: Thrown)
    ensures !IsErrorResponse(SuccessResponse(text)) && IsErrorResponse(ErrorResponse(message, error))
    ensures error.ErrorObject? ==> Includes(ErrorResponse(message, error).content[0], message) &&
                                   Includes(ErrorResponse(message, error).content[0], error.message)
  {
    var t := ErrorResponse(message, error).content[0];
    if error.ErrorObject? {
      assert t == message + (": " + error.message);
      assert t[..|message|] == message;
      assert OccursAt(t, message, 0);
      assert t == (message + ": ") + error.message;
      assert t[|message + ": "|..|message + ": "| + |error.message|] == error.message;
      assert OccursAt(t, error.message, |message + ": "|);
    }
  }

  // ---- formatNotification and formatSubscription ----

  predicate NoLineBreak(s: string) { '\n' !in s }

  predicate Defined(v: Option<Json>) { v.Some? && !v.value.JNull? }

  predicate IsString(v: Option<Json>) { v.Some? && v.value.JStr? }

  /** The texts that a notification's rendering interpolates, as read from the record. */
  datatype NotificationFields = NotificationFields(
    id: string, title: string, repository: string, kind: string, reason: string,
    description: string, unread: bool, updated: string, url: string)

  /**
   * Reading the record: `None` when that raises a TypeError (the record, its `subject` or
   * its `repository` is missing or `null`, or `subject.url` is not a string, so that
   * `.replace` is not a function).
   */
  function ReadNotification(n: Json, host: Host): (f: Option<NotificationFields>)
    ensures f.Some? <==> !n.JNull? && Defined(Property(n, "subject")) && Defined(Property(n, "repository"))
                         && IsString(Property(Property(n, "subject").value, "url"))
    ensures f.Some? ==> f.value.url == Property(Property(n, "subject").value, "url").value.s
    ensures f.Some? ==> f.value.unread == Truthy(Property(n, "unread"))
    ensures f.Some? ==> f.value.description == DescribeReason(f.value.reason)
  {
    if n.JNull? then None
    else
      var subject := Property(n, "subject");
      var repository := Property(n, "repository");
      if !Defined(subject) || !Defined(repository) then None
      else
        var url := Property(subject.value, "url");
        if !IsString(url) then None
        else Some(NotificationFields(
          Template(Property(n, "id")), Template(Property(subject.value, "title")),
          Template(Property(repository.value, "full_name")), Template(Property(subject.value, "type")),
          Template(Property(n, "reason")), DescribeReason(Template(Property(n, "reason"))), Truthy(Property(n, "unread")),
          host.dateText(Property(n, "updated_at")), url.value.s))
  }

  /** The eight lines of the template literal. */
  function NotificationLines(f: NotificationFields): seq<string> {
    ["ID: " + f.id,
     "Title: " + f.title,
     "Repository: " + f.repository,
     "Type: " + f.kind,
     "Reason: " + f.reason + " (" + f.description + ")",
     "Status: " + (if f.unread then "Unread" else "Read"),
     "Updated: " + f.updated,
     "URL: " + ConvertApiUrlToHtmlUrl(f.url)]
  }

  /** `formatNotification`; `None` when reading the record raises a TypeError. */
  function FormatNotification(n: Json, host: Host): (text: Option<string>)
    ensures text.Some? <==> ReadNotification(n, host).Some?
  {
    var f := ReadNotification(n, host);
    if f.None? then None else Some(Join(NotificationLines(f.value), "\n"))
  }

  /** No text taken from the record holds a line break. */
  predicate RecordTextsSingleLine(f: NotificationFields) {
    NoLineBreak(f.id) && NoLineBreak(f.title) && NoLineBreak(f.repository) && NoLineBreak(f.kind)
    && NoLineBreak(f.reason) && NoLineBreak(f.updated) && NoLineBreak(f.url)
  }

  /** `ReplaceFirst` and `FixPulls` add no character that is in neither input. */
  lemma ConvertKeepsLines(url: string)
    requires NoLineBreak(url)
    ensures NoLineBreak(ConvertApiUrlToHtmlUrl(url))
  {
    var r := ReplaceFirst(url, ApiReposHost, "github.com");
    if Occurs(url, ApiReposHost) {
      var i :| i == IndexOf(url, ApiReposHost).value;
      assert r == url[..i] + "github.com" + url[i + |ApiReposHost|..];
      assert forall c :: c in url[..i] ==> c in url;
      assert forall c :: c in url[i + |ApiReposHost|..] ==> c in url;
    }
    FixPullsChars(r);
  }

  /**
   * When no field text holds a line break, the rendered notification splits back into its
   * eight lines: the ID line comes first, the status line says `Unread` exactly for unread
   * notifications, the reason line carries the description, and the URL line holds the
   * converted subject URL.
   */
  lemma NotificationLayout(f: NotificationFields)
    requires RecordTextsSingleLine(f) && NoLineBreak(f.description)
    ensures var lines := Split(Join(NotificationLines(f), "\n"), '\n');
      |lines| == 8 &&
      lines[0] == "ID: " + f.id &&
      lines[4] == "Reason: " + f.reason + " (" + f.description + ")" &&
      (lines[5] == "Status: Unread" <==> f.unread) &&
      lines[7] == "URL: " + ConvertApiUrlToHtmlUrl(f.url)
  {
    NotificationLinesSingle(f);
    SplitJoin(NotificationLines(f), '\n');
  }

  lemma NotificationLinesSingle(f: NotificationFields)
    requires RecordTextsSingleLine(f) && NoLineBreak(f.description)
    ensures forall p | p in NotificationLines(f) :: NoLineBreak(p)
  {
    var url := ConvertApiUrlToHtmlUrl(f.url);
    ConvertKeepsLines(f.url);
    var lines := NotificationLines(f);
    assert lines[7] == "URL: " + url;
    forall i | 0 <= i < 7 ensures NoLineBreak(lines[i]) {
    }
  }

  /** The rendering of a record the reader accepts, line by line. */
  lemma FormatNotificationLayout(n: Json, host: Host)
    requires ReadNotification(n, host).Some? && RecordTextsSingleLine(ReadNotification(n, host).value)
    ensures var lines := Split(FormatNotification(n, host).value, '\n');
      |lines| == 8 &&
      (lines[5] == "Status: Unread" <==> Truthy(Property(n, "unread"))) &&
      lines[7] == "URL: " + ConvertApiUrlToHtmlUrl(Property(Property(n, "subject").value, "url").value.s)
  {
    var f := ReadNotification(n, host).value;
    NotificationLayout(f);
  }

  /** The fields of a subscription's rendering: `reason` is `None` when the record's reason is falsy. */
  datatype SubscriptionFields = SubscriptionFields(subscribed: bool, ignored: bool, reason: Option<string>, created: string)

  function ReadSubscription(sub: Json, host: Host): (f: Option<SubscriptionFields>)
    ensures f.Some? <==> !sub.JNull?
    ensures f.Some? ==> (f.value.reason.Some? <==> Truthy(Property(sub, "reason")))
  {
    if sub.JNull? then None
    else
      var reason := Property(sub, "reason");
      Some(SubscriptionFields(
        Truthy(Property(sub, "subscribed")), Truthy(Property(sub, "ignored")),
        if Truthy(reason) then Some(Template(reason)) else None,
        host.dateText(Property(sub, "created_at"))))
  }

  const SubscriptionStatus: string := "Subscription Status: "

  function SubscriptionLines(f: SubscriptionFields): seq<string> {
    [SubscriptionStatus + (if f.subscribed then "Subscribed" else "Not Subscribed"),
     "Ignored: " + (if f.ignored then "Yes" else "No"),
     if f.reason.Some? then "Reason: " + f.reason.value else "",
     "Created: " + f.created]
  }

  /** `formatSubscription`; `None` for a `null` record. */
  function FormatSubscription(sub: Json, host: Host): (text: Option<string>)
    ensures text.Some? <==> !sub.JNull?
  {
    var f := ReadSubscription(sub, host);
    if f.None? then None else Some(Join(SubscriptionLines(f.value), "\n"))
  }

  /** The reason line is empty exactly when the subscription has no (truthy) reason. */
  lemma SubscriptionLayout(f: SubscriptionFields)
    requires f.reason.Some? ==> NoLineBreak(f.reason.value)
    requires NoLineBreak(f.created)
    ensures var lines := Split(Join(SubscriptionLines(f), "\n"), '\n');
      |lines| == 4 &&
      (lines[0] == SubscriptionStatus + "Subscribed" <==> f.subscribed) &&
      (lines[1] == "Ignored: Yes" <==> f.ignored) &&
      (lines[2] != "" <==> f.reason.Some?) &&
      (f.reason.Some? ==> lines[2] == "Reason: " + f.reason.value) &&
      lines[3] == "Created: " + f.created
  {
    SubscriptionLinesSingle(f);
    SplitJoin(SubscriptionLines(f), '\n');
  }

  lemma SubscriptionLinesSingle(f: SubscriptionFields)
    requires f.reason.Some? ==> NoLineBreak(f.reason.value)
    requires NoLineBreak(f.created)
    ensures forall p | p in SubscriptionLines(f) :: NoLineBreak(p)
  {
    assert NoLineBreak(SubscriptionStatus);
    var lines := SubscriptionLines(f);
    forall i | 0 <= i < 4 ensures NoLineBreak(lines[i]) {
    }
  }

  /** The rendering of a non-null record, line by line. */
  lemma FormatSubscriptionLayout(sub: Json, host: Host)
    requires !sub.JNull?
    requires NoLineBreak(Template(Property(sub, "reason"))) && NoLineBreak(host.dateText(Property(sub, "created_at")))
    ensures var lines := Split(FormatSubscription(sub, host).value, '\n');
      |lines| == 4 && (lines[2] != "" <==> Truthy(Property(sub, "reason")))
  {
    SubscriptionLayout(ReadSubscription(sub, host).value);
  }
}
