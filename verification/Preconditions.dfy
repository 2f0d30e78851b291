/**
 Evaluation of If-Match and If-None-Match (filesystem/preconditions.go). Header values are strings of
 code points. The tag-list grammar is stated on its own (`Denotes`), `ParseTags` is shown to decide it,
 and the consuming loop of `matchRevision` is proved against `ParseTags`.
 */
module Preconditions {
  import opened Content

  // ---------------------------------------------------------------- white space

  /** The code points unicode.IsSpace accepts, which strings.TrimSpace removes. */
  predicate Space(c: char) {
    var n := c as int;
    (9 <= n <= 13) || n == 0x20 || n == 0x85 || n == 0xA0 || n == 0x1680 || (0x2000 <= n <= 0x200A)
    || n == 0x2028 || n == 0x2029 || n == 0x202F || n == 0x205F || n == 0x3000
  }

  predicate Blank(s: string) {
    forall i :: 0 <= i < |s| ==> Space(s[i])
  }

  function TrimLeft(s: string): (r: string)
    ensures |r| <= |s|
  {
    if s != "" && Space(s[0]) then TrimLeft(s[1..]) else s
  }

  function TrimRight(s: string): (r: string)
    ensures |r| <= |s|
  {
    if s != "" && Space(s[|s| - 1]) then TrimRight(s[..|s| - 1]) else s
  }

  function TrimSpace(s: string): (r: string)
    ensures |r| <= |s|
  {
    TrimRight(TrimLeft(s))
  }

  // ---------------------------------------------------------------- grammar

  /** One entity tag; `quoted` keeps its double quotes. */
  datatype Tag = Tag(weak: bool, quoted: string)

  predicate TagChar(c: char) {
    c as int >= 0x21 && c as int != 0x7F && c != '\"'
  }

  predicate WellFormed(t: Tag) {
    && |t.quoted| >= 2
    && t.quoted[0] == '\"' && t.quoted[|t.quoted| - 1] == '\"'
    && forall i :: 1 <= i < |t.quoted| - 1 ==> TagChar(t.quoted[i])
  }

  function Text(t: Tag): (text: string) {
    if t.weak then "W/" + t.quoted else t.quoted
  }

  /** What follows a tag: nothing after the last one, a comma and the other tags otherwise. */
  ghost predicate Continues(rest: string, tags: seq<Tag>)
    decreases |tags|, 2
  {
    if tags == [] then rest == "" else rest != "" && rest[0] == ',' && Denotes(rest[1..], tags)
  }

  /** `v` is optional white space, the text of `t`, optional white space, and then `rest`. */
  predicate StartsWithTag(v: string, t: Tag, lead: string, trail: string, rest: string) {
    Blank(lead) && Blank(trail) && v == lead + Text(t) + trail + rest
  }

  /** The non-empty comma-separated list of entity tags of section 13.1.1 of RFC 9110, with optional
      white space around each tag. */
  ghost predicate Denotes(v: string, tags: seq<Tag>)
    decreases |tags|, 1
  {
    && tags != []
    && WellFormed(tags[0])
    && exists lead, trail, rest :: StartsWithTag(v, tags[0], lead, trail, rest) && Continues(rest, tags[1..])
  }

  // ---------------------------------------------------------------- deciding the grammar

  /** Index of the first double quote, or the length when there is none. */
  function QuoteIndex(s: string): (k: nat)
    ensures k <= |s|
    ensures forall i :: 0 <= i < k ==> s[i] != '\"'
    ensures k < |s| ==> s[k] == '\"'
  {
    if s == "" || s[0] == '\"' then 0 else 1 + QuoteIndex(s[1..])
  }

  /** The quoted part at the front of `body`, None when its quotes or characters are wrong. */
  function FrontQuoted(body: string): (r: Option<string>)
    ensures r.Some? ==> 2 <= |r.value| <= |body| && body[..|r.value|] == r.value
    ensures r.Some? ==> WellFormed(Tag(false, r.value))
  {
    if |body| < 2 || body[0] != '\"' then None
    else
      var inner := QuoteIndex(body[1..]);
      if inner == |body| - 1 then None
      else
        var quoted := body[..inner + 2];
        assert forall i :: 1 <= i < |quoted| - 1 ==> quoted[i] == body[1..][i - 1];
        assert quoted[|quoted| - 1] == body[1..][inner];
        if forall i :: 1 <= i < |quoted| - 1 ==> TagChar(quoted[i]) then Some(quoted) else None
  }

  predicate WeakPrefix(v: string) {
    |v| >= 2 && v[0] == 'W' && v[1] == '/'
  }

  /** The first tag of a trimmed list and the trimmed text after it. */
  function FirstTag(v: string): (r: Option<(Tag, string)>)
    ensures r.Some? ==> WellFormed(r.value.0) && |r.value.1| < |v|
  {
    var weak := WeakPrefix(v);
    var body := if weak then v[2..] else v;
    match FrontQuoted(body)
    case None => None
    case Some(quoted) => Some((Tag(weak, quoted), TrimSpace(body[|quoted|..])))
  }

  /** The tags of a trimmed list, None when it is malformed. */
  function ParseTags(v: string): (r: Option<seq<Tag>>)
    decreases |v|
  {
    match FirstTag(v)
    case None => None
    case Some((tag, rest)) =>
      if rest == "" then Some([tag])
      else if rest[0] != ',' then None
      else
        match ParseTags(TrimSpace(rest[1..]))
        case None => None
        case Some(tags) => Some([tag] + tags)
  }

  // ---------------------------------------------------------------- lemmas about trimming

  predicate Trimmed(r: string) {
    r == "" || (!Space(r[0]) && !Space(r[|r| - 1]))
  }

  lemma {:induction false} TrimLeftStops(lead: string, r: string)
    requires Blank(lead) && (r == "" || !Space(r[0]))
    ensures TrimLeft(lead + r) == r
  {
    if lead == "" {
      assert lead + r == r;
    } else {
      assert (lead + r)[1..] == lead[1..] + r;
      TrimLeftStops(lead[1..], r);
    }
  }

  lemma {:induction false} TrimRightStops(r: string, trail: string)
    requires Blank(trail) && (r == "" || !Space(r[|r| - 1]))
    ensures TrimRight(r + trail) == r
  {
    if trail == "" {
      assert r + trail == r;
    } else {
      assert (r + trail)[..|r + trail| - 1] == r + trail[..|trail| - 1];
      TrimRightStops(r, trail[..|trail| - 1]);
    }
  }

  /** TrimSpace returns the only trimmed text that blank surroundings turn into `s`. */
  lemma {:induction false} TrimUnique(lead: string, r: string, trail: string)
    requires Blank(lead) && Blank(trail) && Trimmed(r)
    ensures TrimSpace(lead + r + trail) == r
  {
    assert lead + r + trail == lead + (r + trail);
    if r == "" {
      assert lead + r + trail == (lead + trail) + "";
      TrimLeftStops(lead + trail, "");
    } else {
      TrimLeftStops(lead, r + trail);
      TrimRightStops(r, trail);
    }
  }

  lemma {:induction false} TrimLeftCuts(s: string) returns (lead: string)
    ensures Blank(lead) && s == lead + TrimLeft(s)
    ensures TrimLeft(s) != "" ==> !Space(TrimLeft(s)[0])
  {
    lead := "";
    if s != "" && Space(s[0]) {
      var rest := TrimLeftCuts(s[1..]);
      lead := [s[0]] + rest;
      assert s == [s[0]] + s[1..];
    }
  }

  lemma {:induction false} TrimRightCuts(s: string) returns (trail: string)
    ensures Blank(trail) && s == TrimRight(s) + trail
    ensures TrimRight(s) != "" ==> !Space(TrimRight(s)[|TrimRight(s)| - 1])
  {
    trail := "";
    if s != "" && Space(s[|s| - 1]) {
      var rest := TrimRightCuts(s[..|s| - 1]);
      trail := rest + [s[|s| - 1]];
      assert s == s[..|s| - 1] + [s[|s| - 1]];
    }
  }

  /** How TrimSpace cuts its argument: a blank prefix and a blank suffix. */
  lemma {:induction false} TrimCuts(s: string) returns (lead: string, trail: string)
    ensures Blank(lead) && Blank(trail) && Trimmed(TrimSpace(s))
    ensures s == lead + TrimSpace(s) + trail
  {
    lead := TrimLeftCuts(s);
    trail := TrimRightCuts(TrimLeft(s));
    var r := TrimSpace(s);
    assert r != "" ==> r[0] == TrimLeft(s)[0];
  }

  /** Blank text around `s` does not change what TrimSpace returns. */
  lemma {:induction false} TrimIgnoresBlank(lead: string, s: string, trail: string)
    requires Blank(lead) && Blank(trail)
    ensures TrimSpace(lead + s + trail) == TrimSpace(s)
  {
    var l, t := TrimCuts(s);
    assert lead + s + trail == (lead + l) + TrimSpace(s) + (t + trail);
    TrimUnique(lead + l, TrimSpace(s), t + trail);
  }

  // ---------------------------------------------------------------- the parser decides the grammar

  lemma {:induction false} TextIsTrimmed(t: Tag)
    requires WellFormed(t)
    ensures Text(t) != "" && Trimmed(Text(t))
  {
  }

  /** The first tag of text that starts with a tag is that tag. */
  lemma {:induction false} FirstTagOfText(t: Tag, x: string)
    requires WellFormed(t)
    ensures FirstTag(Text(t) + x) == Some((t, TrimSpace(x)))
  {
    var v := Text(t) + x;
    assert WeakPrefix(v) == t.weak;
    var body := if t.weak then v[2..] else v;
    assert body == t.quoted + x;
    FrontQuotedOf(t, x);
    assert body[|t.quoted|..] == x;
  }

  lemma {:induction false} FrontQuotedOf(t: Tag, x: string)
    requires WellFormed(t)
    ensures FrontQuoted(t.quoted + x) == Some(t.quoted)
  {
    var body := t.quoted + x;
    var inner := QuoteIndex(body[1..]);
    var last := |t.quoted| - 2;
    assert body[1..][last] == '\"';
    assert forall i :: 0 <= i < last ==> body[1..][i] == t.quoted[i + 1] && TagChar(t.quoted[i + 1]);
    assert inner == last;
    assert body[..inner + 2] == t.quoted;
  }

  /** The text FirstTag consumed is the text of the tag it returns. */
  lemma {:induction false} FirstTagText(v: string) returns (tail: string)
    requires FirstTag(v).Some?
    ensures v == Text(FirstTag(v).value.0) + tail
    ensures FirstTag(v).value.1 == TrimSpace(tail)
  {
    hide TrimSpace, WellFormed;
    var body := if WeakPrefix(v) then v[2..] else v;
    var quoted := FrontQuoted(body).value;
    tail := body[|quoted|..];
    assert body == quoted + tail;
    if WeakPrefix(v) {
      assert v == "W/" + body;
      assert v == ("W/" + quoted) + tail;
    }
  }

  /** Whatever the parser accepts is a list of the grammar. */
  lemma {:induction false} ParserSound(v: string)
    requires ParseTags(TrimSpace(v)).Some?
    ensures Denotes(v, ParseTags(TrimSpace(v)).value)
    decreases |v|
  {
    var (tag, rest) := FirstTag(TrimSpace(v)).value;
    var lead, l, t, trail := SoundSplit(v);
    if rest == "" {
      SoundLast(v, lead, tag, l, t, trail);
      ConsDenotes(v, tag, [], lead, l + t + trail, "");
    } else {
      var w := rest[1..] + (t + trail);
      SoundStep(v, lead, tag, l, rest, t, trail);
      ParserSound(w);
      var more := ParseTags(TrimSpace(w)).value;
      assert ("," + w)[1..] == w;
      assert Continues("," + w, more);
      ConsDenotes(v, tag, more, lead, l, "," + w);
    }
  }

  /** Puts one tag in front of a list. */
  lemma {:induction false} ConsDenotes(v: string, tag: Tag, more: seq<Tag>, lead: string, trail: string, rest: string)
    requires WellFormed(tag) && StartsWithTag(v, tag, lead, trail, rest) && Continues(rest, more)
    ensures Denotes(v, [tag] + more)
  {
    var tags := [tag] + more;
    assert tags[0] == tag && tags[1..] == more;
  }

  /** The white space around the first tag and around what follows it. */
  lemma {:induction false} SoundSplit(v: string) returns (lead: string, l: string, t: string, trail: string)
    requires FirstTag(TrimSpace(v)).Some?
    ensures Blank(lead) && Blank(l) && Blank(t) && Blank(trail)
    ensures v == lead + (Text(FirstTag(TrimSpace(v)).value.0) + (l + FirstTag(TrimSpace(v)).value.1 + t)) + trail
  {
    lead, trail := TrimCuts(v);
    var tail := FirstTagText(TrimSpace(v));
    l, t := TrimCuts(tail);
  }

  lemma {:induction false} SoundLast(v: string, lead: string, tag: Tag, l: string, t: string, trail: string)
    requires v == lead + (Text(tag) + (l + "" + t)) + trail
    requires Blank(lead) && Blank(l) && Blank(t) && Blank(trail)
    ensures StartsWithTag(v, tag, lead, l + t + trail, "")
  {
    assert v == lead + Text(tag) + (l + t + trail) + "";
  }

  lemma {:induction false} SoundStep(v: string, lead: string, tag: Tag, l: string, rest: string, t: string,
                                     trail: string)
    requires v == lead + (Text(tag) + (l + rest + t)) + trail
    requires Blank(lead) && Blank(l) && Blank(t) && Blank(trail) && rest != "" && rest[0] == ','
    ensures StartsWithTag(v, tag, lead, l, "," + (rest[1..] + (t + trail)))
    ensures TrimSpace(rest[1..] + (t + trail)) == TrimSpace(rest[1..])
    ensures |rest[1..] + (t + trail)| < |v|
  {
    assert rest == "," + rest[1..];
    assert v == lead + Text(tag) + l + ("," + (rest[1..] + (t + trail)));
    assert rest[1..] + (t + trail) == "" + rest[1..] + (t + trail);
    TrimIgnoresBlank("", rest[1..], t + trail);
  }

  /** A list of the grammar never trims away to nothing. */
  lemma {:induction false} DenotedIsNotBlank(v: string, tags: seq<Tag>)
    requires Denotes(v, tags)
    ensures TrimSpace(v) != ""
  {
    var lead, trail, rest :| StartsWithTag(v, tags[0], lead, trail, rest);
    assert v[|lead|] == Text(tags[0])[0];
    assert !Space(v[|lead|]);
    var l, t := TrimCuts(v);
  }

  /** The parser accepts every list of the grammar, and returns its tags. */
  lemma {:induction false} ParserComplete(v: string, tags: seq<Tag>)
    requires Denotes(v, tags)
    ensures ParseTags(TrimSpace(v)) == Some(tags)
    decreases |tags|
  {
    hide Space, Denotes, WellFormed, Text, TrimSpace, ParseTags;
    var lead, trail, rest := FirstOf(v, tags);
    if |tags| == 1 {
      ParserCompleteLast(lead, tags[0], trail);
      assert [tags[0]] == tags;
    } else {
      ParserComplete(rest, tags[1..]);
      DenotedIsNotBlank(rest, tags[1..]);
      ParserCompleteStep(lead, tags[0], trail, rest);
      assert [tags[0]] + tags[1..] == tags;
    }
  }

  /** Takes one tag off a list. */
  lemma {:induction false} FirstOf(v: string, tags: seq<Tag>) returns (lead: string, trail: string, rest: string)
    requires Denotes(v, tags)
    ensures tags != [] && WellFormed(tags[0]) && Blank(lead) && Blank(trail)
    ensures |tags| == 1 ==> v == lead + Text(tags[0]) + trail
    ensures |tags| > 1 ==> v == lead + Text(tags[0]) + trail + ("," + rest) && Denotes(rest, tags[1..])
  {
    lead, trail, rest :| StartsWithTag(v, tags[0], lead, trail, rest) && Continues(rest, tags[1..]);
    if |tags| > 1 {
      assert rest == "," + rest[1..];
      rest := rest[1..];
    }
  }

  lemma {:induction false} ParserCompleteLast(l: string, tag: Tag, t: string)
    requires WellFormed(tag) && Blank(l) && Blank(t)
    ensures ParseTags(TrimSpace(l + Text(tag) + t)) == Some([tag])
  {
    TextIsTrimmed(tag);
    TrimUnique(l, Text(tag), t);
    FirstTagOfText(tag, "");
    assert Text(tag) + "" == Text(tag);
    assert "" + "" + "" == "";
    TrimUnique("", "", "");
  }

  /** One tag, a comma and more text: the parser takes the tag and goes on with that text. */
  lemma {:induction false} ParserCompleteStep(l: string, tag: Tag, t: string, w: string)
    requires WellFormed(tag) && Blank(l) && Blank(t)
    requires TrimSpace(w) != "" && ParseTags(TrimSpace(w)).Some?
    ensures ParseTags(TrimSpace(l + Text(tag) + t + ("," + w))) == Some([tag] + ParseTags(TrimSpace(w)).value)
  {
    var w' := TrimBeforeComma(l, tag, t, w);
    FirstTagOfText(tag, t + ("," + w'));
    assert ("," + w')[1..] == w';
  }

  lemma {:induction false} TrimBeforeComma(l: string, tag: Tag, t: string, w: string) returns (w': string)
    requires WellFormed(tag) && Blank(l) && Blank(t) && TrimSpace(w) != ""
    ensures TrimSpace(l + Text(tag) + t + ("," + w)) == Text(tag) + (t + ("," + w'))
    ensures TrimSpace(t + ("," + w')) == "," + w'
    ensures TrimSpace(w') == TrimSpace(w)
  {
    var wl, wt := TrimCuts(w);
    w' := wl + TrimSpace(w);
    var tail := t + ("," + w');
    CoreIsTrimmed(tag, t, wl, TrimSpace(w));
    assert l + Text(tag) + t + ("," + w) == l + (Text(tag) + tail) + wt;
    TrimUnique(l, Text(tag) + tail, wt);
    assert tail == t + ("," + w') + "";
    TrimUnique(t, "," + w', "");
    assert w' == wl + TrimSpace(w) + "";
    TrimUnique(wl, TrimSpace(w), "");
  }

  lemma {:induction false} CoreIsTrimmed(tag: Tag, t: string, wl: string, r: string)
    requires WellFormed(tag) && r != "" && Trimmed(r)
    ensures Trimmed(Text(tag) + (t + ("," + (wl + r))))
    ensures Trimmed("," + (wl + r))
  {
    TextIsTrimmed(tag);
    var core := Text(tag) + (t + ("," + (wl + r)));
    assert core[0] == Text(tag)[0];
    assert core[|core| - 1] == r[|r| - 1];
    assert ("," + (wl + r))[|wl + r|] == r[|r| - 1];
  }

  /** The parser decides the grammar, and the grammar is unambiguous. */
  lemma {:induction false} ParserDecidesGrammar(v: string, tags: seq<Tag>)
    ensures ParseTags(TrimSpace(v)) == Some(tags) <==> Denotes(v, tags)
  {
    if ParseTags(TrimSpace(v)) == Some(tags) {
      ParserSound(v);
    }
    if Denotes(v, tags) {
      ParserComplete(v, tags);
    }
  }

  // ---------------------------------------------------------------- matchRevision

  datatype Verdict = Verdict(matched: bool, valid: bool)

  /** Some tag of the list compares equal to `revision`: under the strong comparison of section 8.8.3.2 of
      RFC 9110, or under the weak one when `weakAllowed`. The revision itself is always strong. */
  predicate Selects(tags: seq<Tag>, revision: string, weakAllowed: bool) {
    exists i :: 0 <= i < |tags| && (!tags[i].weak || weakAllowed) && tags[i].quoted == revision
  }

  /** The verdict on one condition by its meaning: `*` asks for existence, a list for membership. */
  function MatchVerdict(value: string, revision: string, present: bool, weakAllowed: bool): (r: Verdict) {
    if TrimSpace(value) == "*" then Verdict(present, true)
    else
      match ParseTags(TrimSpace(value))
      case None => Verdict(false, false)
      case Some(tags) => Verdict(present && Selects(tags, revision, weakAllowed), true)
  }

  /** The loop of matchRevision: consume one tag after another, remembering whether one matched. */
  method MatchRevision(value: string, revision: string, present: bool, weakAllowed: bool)
    returns (matched: bool, valid: bool)
    ensures Verdict(matched, valid) == MatchVerdict(value, revision, present, weakAllowed)
  {
    var rest := TrimSpace(value);
    if rest == "*" {
      return present, true;
    }
    matched := false;
    ghost var whole := rest;
    ghost var taken: seq<Tag> := [];
    NothingTaken(ParseTags(rest));
    while rest != ""
      invariant ParseTags(whole) == Prefixed(taken, ParseTags(rest))
      invariant matched == (present && Selects(taken, revision, weakAllowed))
      decreases |rest|
    {
      ghost var before := rest;
      var weak := WeakPrefix(rest);
      if weak {
        rest := rest[2..];
      }
      var quoted := FrontQuoted(rest);
      if quoted.None? {
        return false, false;
      }
      matched := matched || (present && (!weak || weakAllowed) && quoted.value == revision);
      rest := TrimSpace(rest[|quoted.value|..]);
      ghost var tag := Tag(weak, quoted.value);
      assert FirstTag(before) == Some((tag, rest));
      SelectsMore(taken, tag, revision, weakAllowed);
      if rest == "" {
        assert taken + [tag] == taken + ParseTags(before).value;
        return matched, true;
      }
      if rest[0] != ',' {
        return false, false;
      }
      rest := TrimSpace(rest[1..]);
      if rest == "" {
        return false, false;
      }
      PrefixedMore(taken, tag, ParseTags(rest));
      taken := taken + [tag];
    }
    return false, false;
  }

  ghost function Prefixed(taken: seq<Tag>, more: Option<seq<Tag>>): Option<seq<Tag>> {
    match more case None => None case Some(tags) => Some(taken + tags)
  }

  lemma {:induction false} NothingTaken(more: Option<seq<Tag>>)
    ensures Prefixed([], more) == more
  {
    if more.Some? {
      assert [] + more.value == more.value;
    }
  }

  lemma {:induction false} PrefixedMore(taken: seq<Tag>, tag: Tag, more: Option<seq<Tag>>)
    ensures Prefixed(taken, Prefixed([tag], more)) == Prefixed(taken + [tag], more)
  {
    if more.Some? {
      assert taken + ([tag] + more.value) == taken + [tag] + more.value;
    }
  }

  lemma {:induction false} SelectsMore(taken: seq<Tag>, tag: Tag, revision: string, weakAllowed: bool)
    ensures Selects(taken + [tag], revision, weakAllowed)
         == (Selects(taken, revision, weakAllowed) || ((!tag.weak || weakAllowed) && tag.quoted == revision))
  {
    var tags := taken + [tag];
    if Selects(taken, revision, weakAllowed) {
      var i :| 0 <= i < |taken| && (!taken[i].weak || weakAllowed) && taken[i].quoted == revision;
      assert tags[i] == taken[i];
    }
    assert tags[|taken|] == tag;
  }

  // ---------------------------------------------------------------- checkRevisionConditions

  /** Validity of a condition depends on its text alone. An absent condition is the empty string. */
  predicate ValidCondition(condition: string) {
    condition == "" || TrimSpace(condition) == "*" || ParseTags(TrimSpace(condition)).Some?
  }

  /** The condition compares entity tags, so the content has to be hashed. */
  predicate ComparesTags(condition: string) {
    condition != "" && TrimSpace(condition) != "*"
  }

  predicate Satisfied(present: bool, ifMatch: string, ifNoneMatch: string, revision: string) {
    && (ifMatch != "" ==> MatchVerdict(ifMatch, revision, present, false).matched)
    && (ifNoneMatch != "" ==> !MatchVerdict(ifNoneMatch, revision, present, true).matched)
  }

  /** Eager evaluation, with the revision at hand from the start: malformed conditions first, then a failed
      hash when one was needed, then If-Match and If-None-Match. */
  function ConditionStatus(present: bool, ifMatch: string, ifNoneMatch: string,
                           revision: Option<string>): (status: int) {
    if !ValidCondition(ifMatch) || !ValidCondition(ifNoneMatch) then 400
    else if present && (ComparesTags(ifMatch) || ComparesTags(ifNoneMatch)) && revision.None? then 503
    else if !Satisfied(present, ifMatch, ifNoneMatch, if revision.Some? then revision.value else "") then 412
    else 0
  }

  /** A condition that compares no tag has the same verdict whatever the revision is. */
  lemma {:induction false} RevisionUnused(value: string, a: string, b: string, present: bool, weakAllowed: bool)
    requires !present || !ComparesTags(value)
    requires value != ""
    ensures MatchVerdict(value, a, present, weakAllowed) == MatchVerdict(value, b, present, weakAllowed)
  {
  }

  /** The first loop of checkRevisionConditions, over the two conditions. */
  method ValidateConditions(present: bool, conditions: seq<string>) returns (valid: bool, needsRevision: bool)
    ensures valid <==> forall k :: 0 <= k < |conditions| ==> ValidCondition(conditions[k])
    ensures valid ==> (needsRevision <==> exists k :: 0 <= k < |conditions| && ComparesTags(conditions[k]))
  {
    hide TrimSpace, ParseTags;
    needsRevision := false;
    for i := 0 to |conditions|
      invariant forall k :: 0 <= k < i ==> ValidCondition(conditions[k])
      invariant needsRevision <==> exists k :: 0 <= k < i && ComparesTags(conditions[k])
    {
      if conditions[i] != "" {
        var _, ok := MatchRevision(conditions[i], "", present, true);
        if !ok {
          return false, needsRevision;
        }
        needsRevision := needsRevision || TrimSpace(conditions[i]) != "*";
      }
    }
    valid := true;
  }

  /** checkRevisionConditions: validates both conditions, hashes lazily, then evaluates. It returns what the
      eager evaluation returns, and asks for the revision at most once and only when some tag is compared. */
  method CheckRevisionConditions(present: bool, ifMatch: string, ifNoneMatch: string, revision: Option<string>)
    returns (status: int, loads: nat)
    ensures status == ConditionStatus(present, ifMatch, ifNoneMatch, revision)
    ensures loads == (if present && ValidCondition(ifMatch) && ValidCondition(ifNoneMatch)
                         && (ComparesTags(ifMatch) || ComparesTags(ifNoneMatch)) then 1 else 0)
  {
    loads := 0;
    ghost var conditions := [ifMatch, ifNoneMatch];
    var valid, needsRevision := ValidateConditions(present, [ifMatch, ifNoneMatch]);
    assert ifMatch == conditions[0] && ifNoneMatch == conditions[1];
    if !valid {
      return 400, 0;
    }
    var current := "";
    if present && needsRevision {
      loads := 1;
      if revision.None? {
        return 503, loads;
      }
      current := revision.value;
    } else {
      UnusedInBoth(present, ifMatch, ifNoneMatch, current, if revision.Some? then revision.value else "");
    }
    if ifMatch != "" {
      var matched, ok := MatchRevision(ifMatch, current, present, false);
      if !ok {
        return 400, loads;
      }
      if !matched {
        return 412, loads;
      }
    }
    if ifNoneMatch != "" {
      var matched, ok := MatchRevision(ifNoneMatch, current, present, true);
      if !ok {
        return 400, loads;
      }
      if matched {
        return 412, loads;
      }
    }
    status := 0;
  }

  lemma {:induction false} UnusedInBoth(present: bool, ifMatch: string, ifNoneMatch: string, a: string, b: string)
    requires !present || (!ComparesTags(ifMatch) && !ComparesTags(ifNoneMatch))
    ensures Satisfied(present, ifMatch, ifNoneMatch, a) == Satisfied(present, ifMatch, ifNoneMatch, b)
  {
    if ifMatch != "" {
      RevisionUnused(ifMatch, a, b, present, false);
    }
    if ifNoneMatch != "" {
      RevisionUnused(ifNoneMatch, a, b, present, true);
    }
  }

  /** What passing the conditions means, in the words of sections 13.1.1 and 13.1.2 of RFC 9110: an If-Match
      list names the current revision as a strong tag, and an If-None-Match list does not name it at all. */
  lemma {:induction false} ConditionsMean(present: bool, ifMatch: string, ifNoneMatch: string, revision: string,
                                          matchTags: seq<Tag>, noneTags: seq<Tag>)
    requires ConditionStatus(present, ifMatch, ifNoneMatch, Some(revision)) == 0
    ensures ifMatch != "" ==> present
    ensures Denotes(ifMatch, matchTags) ==> Selects(matchTags, revision, false)
    ensures ifMatch != "" && TrimSpace(ifMatch) != "*" ==> exists tags :: Denotes(ifMatch, tags)
    ensures present && ifNoneMatch != "" ==> TrimSpace(ifNoneMatch) != "*"
    ensures present && Denotes(ifNoneMatch, noneTags) ==> !Selects(noneTags, revision, true)
  {
    if Denotes(ifMatch, matchTags) {
      ParserComplete(ifMatch, matchTags);
      StarIsNoList(ifMatch, matchTags);
    }
    if ifMatch != "" && TrimSpace(ifMatch) != "*" {
      ParserSound(ifMatch);
    }
    if Denotes(ifNoneMatch, noneTags) {
      ParserComplete(ifNoneMatch, noneTags);
      StarIsNoList(ifNoneMatch, noneTags);
    }
  }

  lemma {:induction false} StarIsNoList(v: string, tags: seq<Tag>)
    requires ParseTags(TrimSpace(v)) == Some(tags)
    ensures TrimSpace(v) != "*" && v != ""
  {
    assert FirstTag("*") == None && FirstTag("") == None;
  }
}
