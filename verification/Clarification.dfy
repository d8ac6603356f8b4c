/** The texts of the pre-dispatch clarification gate: what counts as input from people, what
    is fingerprinted, and the comment the gate posts. */
module Clarification {
  import opened Prelude
  import opened Tracker

  const CLARIFICATION_POLL_INTERVAL_MS := 300_000
  const CLARIFICATION_COMMENT_MARKER := "<!-- river-gang clarification request -->"

  datatype Decision = Decision(sufficient: bool, questions: seq<string>, rationale: Option<string>)

  datatype WaitEntry = WaitEntry(
    issueId: string,
    identifier: string,
    lastSeenCommentIds: set<string>,
    lastQuestionFingerprint: Option<string>,
    nextPollAt: int,
    lastInputFingerprint: Option<string>)

  /** The digest, the timestamp rendering and which characters stand for lone surrogates are taken
      as given; nothing is assumed of them. */
  datatype Primitives = Primitives(sha256: string -> string, isoFormat: Stamp -> string, surrogate: char -> bool)

  // ---------------------------------------------------------------------
  // Text helpers
  // ---------------------------------------------------------------------

  predicate IsSpace(c: char) {
    var n := c as int;
    0x9 <= n <= 0xd || 0x1c <= n <= 0x20 || n == 0x85 || n == 0xa0 || n == 0x1680 || 0x2000 <= n <= 0x200a
    || n == 0x2028 || n == 0x2029 || n == 0x202f || n == 0x205f || n == 0x3000
  }

  function StripLeft(s: string): string {
    if s != "" && IsSpace(s[0]) then StripLeft(s[1..]) else s
  }

  function StripRight(s: string): string {
    if s != "" && IsSpace(s[|s| - 1]) then StripRight(s[..|s| - 1]) else s
  }

  function Strip(s: string): string {
    StripRight(StripLeft(s))
  }

  function Join(sep: string, parts: seq<string>): string {
    if parts == [] then ""
    else if |parts| == 1 then parts[0]
    else parts[0] + sep + Join(sep, parts[1..])
  }

  // ---------------------------------------------------------------------
  // Fingerprints
  // ---------------------------------------------------------------------

  predicate IsClarificationComment(c: Comment) {
    Contains(c.body, CLARIFICATION_COMMENT_MARKER)
  }

  function NonClarificationCommentIds(comments: seq<Comment>): set<string> {
    set c | c in comments && !IsClarificationComment(c) :: c.id
  }

  /** UTF-8 encodes every character but lone surrogates, which are not ASCII. */
  predicate Encodable(p: Primitives, text: string) {
    forall c :: c in text ==> c as int < 128 || !p.surrogate(c)
  }

  /** Hashing encodes the text first, and raises if that cannot be done. */
  function Digest(p: Primitives, text: string): Reply<string> {
    if Encodable(p, text) then Returned(p.sha256(text)) else Raised("surrogates not allowed")
  }

  predicate AllEncodable(p: Primitives, parts: seq<string>) {
    forall part :: part in parts ==> Encodable(p, part)
  }

  /** Joined by an encodable separator, texts can be encoded exactly if each of them can. */
  lemma {:induction false} JoinEncodable(p: Primitives, sep: string, parts: seq<string>)
    requires Encodable(p, sep)
    ensures Encodable(p, Join(sep, parts)) <==> AllEncodable(p, parts)
  {
    if |parts| == 1 {
      assert parts[0] in parts;
    } else if parts != [] {
      JoinEncodable(p, sep, parts[1..]);
      var joined := Join(sep, parts);
      assert joined == parts[0] + (sep + Join(sep, parts[1..]));
      assert parts == [parts[0]] + parts[1..];
      assert Encodable(p, joined) <==>
             Encodable(p, parts[0]) && Encodable(p, sep) && Encodable(p, Join(sep, parts[1..])) by {
        assert forall c :: c in joined <==> c in parts[0] || c in sep || c in Join(sep, parts[1..]);
      }
    }
  }

  function IsoOrEmpty(p: Primitives, t: Option<Stamp>): string {
    match t case None => "" case Some(at) => p.isoFormat(at)
  }

  function IssueParts(p: Primitives, issue: Issue): seq<string> {
    [issue.id, issue.identifier, issue.title,
     match issue.description case None => "" case Some(d) => d,
     IsoOrEmpty(p, issue.updatedAt)]
  }

  function CommentParts(p: Primitives, c: Comment): seq<string> {
    if IsClarificationComment(c) then []
    else [c.id, c.body, IsoOrEmpty(p, c.createdAt), IsoOrEmpty(p, c.updatedAt)]
  }

  function CommentsParts(p: Primitives, comments: seq<Comment>): seq<string> {
    if comments == [] then []
    else CommentsParts(p, comments[..|comments| - 1]) + CommentParts(p, comments[|comments| - 1])
  }

  /** The list of texts that is joined and hashed. */
  function InputParts(p: Primitives, issue: Issue, comments: seq<Comment>): seq<string> {
    IssueParts(p, issue) + CommentsParts(p, comments)
  }

  function InputFingerprint(p: Primitives, issue: Issue, comments: seq<Comment>): Reply<string> {
    Digest(p, Join("\0", InputParts(p, issue, comments)))
  }

  method FingerprintClarificationInputs(p: Primitives, issue: Issue, comments: seq<Comment>) returns (r: Reply<string>)
    ensures r == InputFingerprint(p, issue, comments)
  {
    var parts := IssueParts(p, issue);
    for i := 0 to |comments|
      invariant parts == IssueParts(p, issue) + CommentsParts(p, comments[..i])
    {
      var before := parts;
      if !IsClarificationComment(comments[i]) {
        var c := comments[i];
        parts := parts + [c.id, c.body, IsoOrEmpty(p, c.createdAt), IsoOrEmpty(p, c.updatedAt)];
      }
      assert comments[..i + 1][..i] == comments[..i];
      assert parts == before + CommentParts(p, comments[i]);
    }
    assert comments[..|comments|] == comments;
    r := Digest(p, Join("\0", parts));
  }

  function Asked(questions: seq<string>): seq<string> {
    if questions == [] then []
    else (if Strip(questions[0]) != "" then [Strip(questions[0])] else []) + Asked(questions[1..])
  }

  function QuestionFingerprint(p: Primitives, questions: seq<string>): Reply<string> {
    Digest(p, Join("\n", Asked(questions)))
  }

  /** The fingerprints raise exactly if some text that goes into them holds a lone surrogate. */
  lemma FingerprintsRaiseExactly(p: Primitives, issue: Issue, comments: seq<Comment>, questions: seq<string>)
    ensures InputFingerprint(p, issue, comments).Raised? <==> !AllEncodable(p, InputParts(p, issue, comments))
    ensures QuestionFingerprint(p, questions).Raised? <==> !AllEncodable(p, Asked(questions))
  {
    hide Join, Asked, InputParts;
    JoinEncodable(p, "\0", InputParts(p, issue, comments));
    JoinEncodable(p, "\n", Asked(questions));
  }

  function NextPollAt(now: int): int {
    now + 1000 * CLARIFICATION_POLL_INTERVAL_MS
  }

  // ---------------------------------------------------------------------
  // The comment the gate posts
  // ---------------------------------------------------------------------

  function Numbered(questions: seq<string>, first: nat): seq<string> {
    if questions == [] then []
    else [Decimal(first) + ". " + questions[0]] + Numbered(questions[1..], first + 1)
  }

  function CommentTail(d: Decision): string {
    var asked := Asked(d.questions);
    var questions :=
      if asked == [] then ["Please clarify the expected final result and important edge cases."] else asked;
    "\n\n" + "Before implementation, river-gang needs clarification:\n\n"
    + Join("\n", Numbered(questions, 1))
    + match d.rationale case Some(why) => (if why == "" then "" else "\n\nReason: " + why) case None => ""
  }

  function FormatClarificationComment(d: Decision): string {
    CLARIFICATION_COMMENT_MARKER + CommentTail(d)
  }

  // ---------------------------------------------------------------------
  // The gate does not count its own comments
  // ---------------------------------------------------------------------

  lemma OwnCommentIsMarked(d: Decision, c: Comment)
    requires c.body == FormatClarificationComment(d)
    ensures IsClarificationComment(c)
  {
    ContainsInfix("", CLARIFICATION_COMMENT_MARKER, CommentTail(d));
    assert "" + CLARIFICATION_COMMENT_MARKER + CommentTail(d) == c.body;
  }

  /** `s` has the text `sub` at position `i`. */
  predicate OccursAt(s: string, sub: string, i: nat) {
    i + |sub| <= |s| && s[i..i + |sub|] == sub
  }

  lemma {:induction false} ContainsExactly(s: string, sub: string)
    ensures Contains(s, sub) <==> exists i: nat :: OccursAt(s, sub, i)
  {
    if sub <= s {
      assert OccursAt(s, sub, 0);
    } else if s != "" {
      ContainsExactly(s[1..], sub);
      if Contains(s[1..], sub) {
        var i: nat :| OccursAt(s[1..], sub, i);
        assert OccursAt(s, sub, i + 1);
      }
      if i: nat :| OccursAt(s, sub, i) {
        assert i > 0;
        assert OccursAt(s[1..], sub, i - 1);
      }
    }
  }

  /** A comment counts as the gate's own exactly if it has the marker anywhere, whoever wrote it. */
  lemma MarkedExactly(c: Comment)
    ensures IsClarificationComment(c) <==> exists i: nat :: OccursAt(c.body, "<!-- river-gang clarification request -->", i)
  {
    ContainsExactly(c.body, "<!-- river-gang clarification request -->");
  }

  /** What is hashed, text by text: five of the issue, and four of each comment that is not the gate's
      own, in order. */
  lemma HashedTexts(p: Primitives, issue: Issue, comments: seq<Comment>, c: Comment)
    ensures InputParts(p, issue, []) ==
      [issue.id, issue.identifier, issue.title, if issue.description.Some? then issue.description.value else "",
       if issue.updatedAt.Some? then p.isoFormat(issue.updatedAt.value) else ""]
    ensures InputParts(p, issue, comments + [c]) == InputParts(p, issue, comments)
      + if exists i: nat :: OccursAt(c.body, "<!-- river-gang clarification request -->", i) then []
        else [c.id, c.body, if c.createdAt.Some? then p.isoFormat(c.createdAt.value) else "",
              if c.updatedAt.Some? then p.isoFormat(c.updatedAt.value) else ""]
  {
    MarkedExactly(c);
    assert (comments + [c])[..|comments|] == comments;
  }

  // ---------------------------------------------------------------------
  // The comment, read back
  // ---------------------------------------------------------------------

  predicate AllBlank(s: string) {
    forall c :: c in s ==> IsSpace(c)
  }

  /** Stripping takes off blanks at both ends, and leaves none there. */
  lemma StripExactly(s: string) returns (left: string, right: string)
    ensures s == left + Strip(s) + right && AllBlank(left) && AllBlank(right)
    ensures Strip(s) != "" ==> !IsSpace(Strip(s)[0]) && !IsSpace(Strip(s)[|Strip(s)| - 1])
  {
    left := StrippedLeft(s);
    right := StrippedRight(StripLeft(s));
    assert StripLeft(s) != "" ==> Strip(s) == "" || Strip(s)[0] == StripLeft(s)[0];
  }

  lemma {:induction false} StrippedLeft(s: string) returns (left: string)
    ensures s == left + StripLeft(s) && AllBlank(left)
    ensures StripLeft(s) != "" ==> !IsSpace(StripLeft(s)[0])
  {
    if s != "" && IsSpace(s[0]) {
      var rest := StrippedLeft(s[1..]);
      left := [s[0]] + rest;
      assert s == [s[0]] + s[1..];
    } else {
      left := "";
    }
  }

  lemma {:induction false} StrippedRight(s: string) returns (right: string)
    ensures s == StripRight(s) + right && AllBlank(right)
    ensures StripRight(s) != "" ==> !IsSpace(StripRight(s)[|StripRight(s)| - 1]) && StripRight(s)[0] == s[0]
  {
    if s != "" && IsSpace(s[|s| - 1]) {
      var rest := StrippedRight(s[..|s| - 1]);
      right := rest + [s[|s| - 1]];
      assert s == s[..|s| - 1] + [s[|s| - 1]];
    } else {
      right := "";
    }
  }

  /** The questions asked are those that are not blank, stripped, in order. */
  lemma AskedExactly(questions: seq<string>, q: string)
    ensures Asked([]) == []
    ensures Asked([q] + questions) == (if AllBlank(q) then [] else [Strip(q)]) + Asked(questions)
  {
    assert ([q] + questions)[1..] == questions;
    var left, right := StripExactly(q);
    if Strip(q) == "" {
      assert q == left + right;
    } else {
      assert Strip(q)[0] in q;
    }
  }

  /** The comment: the marker, the heading, the questions numbered from one, or a standard one if there
      are none, and the reason if one is given. */
  lemma CommentExactly(d: Decision)
    ensures var asked := Asked(d.questions);
      FormatClarificationComment(d) == "<!-- river-gang clarification request -->" + (
        "\n\n" + "Before implementation, river-gang needs clarification:\n\n"
        + (if asked == [] then "1. " + "Please clarify the expected final result and important edge cases."
           else Join("\n", Numbered(asked, 1)))
        + (if d.rationale == None || d.rationale == Some("") then "" else "\n\nReason: " + d.rationale.value))
  {
    hide Join, Asked, Numbered;
    OneQuestion("Please clarify the expected final result and important edge cases.");
  }

  lemma OneQuestion(q: string)
    ensures Join("\n", Numbered([q], 1)) == "1. " + q
  {
    assert [q][1..] == [];
    assert Decimal(1) == "1";
    assert "1" + ". " + q == "1. " + q;
  }

  lemma {:induction false} NumberedExactly(questions: seq<string>, first: nat, i: nat)
    requires i < |questions|
    ensures |Numbered(questions, first)| == |questions|
    ensures Numbered(questions, first)[i] == Decimal(first + i) + ". " + questions[i]
  {
    if |questions| > 1 {
      NumberedExactly(questions[1..], first + 1, if i == 0 then 0 else i - 1);
    }
  }

  predicate FromPerson(c: Comment) {
    !IsClarificationComment(c)
  }

  /** The comments people wrote, in order. */
  function FromPeople(comments: seq<Comment>): seq<Comment> {
    Kept(comments, FromPerson)
  }

  lemma {:induction false} FromPeopleMembers(comments: seq<Comment>, c: Comment)
    ensures c in FromPeople(comments) <==> c in comments && !IsClarificationComment(c)
  {
    if comments != [] {
      var init, last := comments[..|comments| - 1], comments[|comments| - 1];
      FromPeopleMembers(init, c);
      assert comments == init + [last];
    }
  }

  /** The texts fingerprinted are a function of the comments people wrote. */
  lemma {:induction false} PartsFromPeopleOnly(p: Primitives, comments: seq<Comment>)
    ensures CommentsParts(p, comments) == CommentsParts(p, FromPeople(comments))
  {
    if comments != [] {
      var init, last := comments[..|comments| - 1], comments[|comments| - 1];
      PartsFromPeopleOnly(p, init);
      var kept := FromPeople(init);
      if IsClarificationComment(last) {
        assert FromPeople(comments) == kept + [] == kept;
        assert CommentsParts(p, comments) == CommentsParts(p, init) + [];
      } else {
        assert FromPeople(comments) == kept + [last];
        assert (kept + [last])[..|kept + [last]| - 1] == kept;
      }
    }
  }

  /** So is the set of comment ids that counts as seen. */
  lemma IdsFromPeopleOnly(comments: seq<Comment>)
    ensures NonClarificationCommentIds(comments) == set c | c in FromPeople(comments) :: c.id
  {
    forall c ensures c in FromPeople(comments) <==> c in comments && !IsClarificationComment(c) {
      FromPeopleMembers(comments, c);
    }
  }

  lemma FromPeopleSkips(before: seq<Comment>, c: Comment, after: seq<Comment>)
    requires IsClarificationComment(c)
    ensures FromPeople(before + [c] + after) == FromPeople(before + after)
  {
    hide Kept;
    KeptConcat(before + [c], after, FromPerson);
    KeptConcat(before, [c], FromPerson);
    KeptConcat(before, after, FromPerson);
    KeptNone([c], FromPerson);
  }

  /** A comment of the gate's own making, inserted anywhere, leaves the set of comment ids that
      counts as seen alone, and the texts that are fingerprinted change exactly if those of the
      issue itself do, its update time among them. */
  lemma OwnCommentInvisible(p: Primitives, was: Issue, now: Issue,
                            before: seq<Comment>, d: Decision, c: Comment, after: seq<Comment>)
    requires c.body == FormatClarificationComment(d)
    ensures InputParts(p, now, before + [c] + after) == InputParts(p, was, before + after)
            <==> IssueParts(p, now) == IssueParts(p, was)
    ensures NonClarificationCommentIds(before + [c] + after) == NonClarificationCommentIds(before + after)
  {
    OwnCommentIsMarked(d, c);
    FromPeopleSkips(before, c, after);
    PartsFromPeopleOnly(p, before + [c] + after);
    PartsFromPeopleOnly(p, before + after);
    IdsFromPeopleOnly(before + [c] + after);
    IdsFromPeopleOnly(before + after);
    assert InputParts(p, now, before + [c] + after)[..5] == IssueParts(p, now);
    assert InputParts(p, was, before + after)[..5] == IssueParts(p, was);
  }
}
