/** The `attr op "value"` filter language of the list endpoints. */
module Filter {
  import opened Text
  import opened Domain

  datatype Parsed = Parsed(attr: string, op: string, value: string)

  /** Rejected is the server's 400 with scimType invalidFilter. */
  datatype Filtered<+T> = Matches(items: seq<T>) | Rejected

  function ParseSimpleFilter(filter: string): Option<Parsed> {
    var parts := SplitN(Trim(filter, IsSpace), ' ', 3);
    if |parts| != 3 then None
    else Some(Parsed(parts[0], parts[1], Trim(parts[2], IsQuote)))
  }

  // ---------- Splitting, described by what it splits ----------

  function Join(parts: seq<string>, sep: char): string
    requires parts != []
  {
    if |parts| == 1 then parts[0] else parts[0] + [sep] + Join(parts[1..], sep)
  }

  /** The parts join back to the text, and a separator is left only in an n-th part. */
  lemma {:induction false} SplitNMeaning(s: string, sep: char, n: nat)
    requires n > 0
    ensures Join(SplitN(s, sep, n), sep) == s
    ensures forall i :: 0 <= i < |SplitN(s, sep, n)| && i < n - 1 ==> sep !in SplitN(s, sep, n)[i]
    decreases n
  {
    if n > 1 && sep in s {
      var i := IndexOf(s, sep);
      var head, rest := s[..i], SplitN(s[i + 1..], sep, n - 1);
      SplitNMeaning(s[i + 1..], sep, n - 1);
      JoinCons(head, rest, sep);
      assert s == head + [sep] + s[i + 1..];
    }
  }

  lemma JoinCons(head: string, rest: seq<string>, sep: char)
    requires rest != []
    ensures Join([head] + rest, sep) == head + [sep] + Join(rest, sep)
  {
    assert ([head] + rest)[1..] == rest;
  }

  // ---------- Round trip ----------

  function FormatFilter(attr: string, value: string): string {
    attr + " eq \"" + value + "\""
  }

  /** An attribute without blanks and any value at all: the parse gives back the attribute, `eq`,
      and the value without the quotes at its two ends; so it gives back the value itself exactly
      when the value neither starts nor ends with a quote. */
  lemma FilterRoundTrip(attr: string, value: string)
    requires attr != "" && ' ' !in attr && !IsSpace(attr[0])
    ensures ParseSimpleFilter(FormatFilter(attr, value))
            == Some(Parsed(attr, "eq", Trim(value, IsQuote)))
    ensures Trim(value, IsQuote) == value
            <==> value == "" || (value[0] != '"' && value[|value| - 1] != '"')
  {
    var text := FormatFilter(attr, value);
    TrimIsIdentity(text, IsSpace);
    assert text[0] == attr[0] && text[|text| - 1] == '"';
    FilterParts(attr, value);
    TrimWrapped(value, '"', IsQuote);
    TrimIsIdentity(value, IsQuote);
  }

  lemma FilterParts(attr: string, value: string)
    requires ' ' !in attr
    ensures SplitN(FormatFilter(attr, value), ' ', 3) == [attr, "eq", ['"'] + value + ['"']]
  {
    var quoted := ['"'] + value + ['"'];
    FormatIs(attr, value);
    SplitNAt(attr, "eq" + [' '] + quoted, ' ', 3);
    OperatorPart(quoted);
    assert [attr] + ["eq", quoted] == [attr, "eq", quoted];
  }

  lemma FormatIs(attr: string, value: string)
    ensures FormatFilter(attr, value) == attr + [' '] + ("eq" + [' '] + (['"'] + value + ['"']))
  {
  }

  lemma OperatorPart(rest: string)
    ensures SplitN("eq" + [' '] + rest, ' ', 2) == ["eq", rest]
  {
    SplitNAt("eq", rest, ' ', 2);
  }

  /** What parses, and as what: an attribute and an operator without blanks, each followed by one blank, and
      the rest, stripped of the quotes at its ends. */
  lemma ParseTakes(filter: string, attr: string, op: string, rest: string)
    requires Trim(filter, IsSpace) == attr + [' '] + (op + [' '] + rest) && ' ' !in attr && ' ' !in op
    ensures ParseSimpleFilter(filter) == Some(Parsed(attr, op, Trim(rest, IsQuote)))
  {
    SplitNAt(attr, op + [' '] + rest, ' ', 3);
    SplitNAt(op, rest, ' ', 2);
    assert [attr] + ([op] + [rest]) == [attr, op, rest];
  }

  /** ... and nothing else parses. */
  lemma ParseNeeds(filter: string) returns (attr: string, op: string, rest: string)
    requires ParseSimpleFilter(filter).Some?
    ensures Trim(filter, IsSpace) == attr + [' '] + (op + [' '] + rest) && ' ' !in attr && ' ' !in op
  {
    var parts := SplitN(Trim(filter, IsSpace), ' ', 3);
    attr, op, rest := parts[0], parts[1], parts[2];
    SplitNMeaning(Trim(filter, IsSpace), ' ', 3);
    assert parts == [attr] + [op, rest] && [op, rest] == [op] + [rest];
    JoinCons(attr, [op, rest], ' ');
    JoinCons(op, [rest], ' ');
  }

  // ---------- Selecting ----------

  /** The elements of s that satisfy p, in the order they stand in s. */
  function Select<T>(s: seq<T>, p: T -> bool): seq<T> {
    if s == [] then []
    else Select(s[..|s| - 1], p) + (if p(s[|s| - 1]) then [s[|s| - 1]] else [])
  }

  lemma {:induction false} SelectMembers<T>(s: seq<T>, p: T -> bool, x: T)
    ensures x in Select(s, p) <==> x in s && p(x)
  {
    if s != [] {
      SelectMembers(s[..|s| - 1], p, x);
      assert s == s[..|s| - 1] + [s[|s| - 1]];
    }
  }

  predicate Increasing(at: seq<nat>) {
    forall i, j :: 0 <= i < j < |at| ==> at[i] < at[j]
  }

  lemma OneMoreIncreases(at: seq<nat>, n: nat)
    requires Increasing(at) && forall i :: 0 <= i < |at| ==> at[i] < n
    ensures Increasing(at + [n])
  {
  }

  /** Selecting keeps the order: the chosen positions of s increase. */
  lemma {:induction false} SelectKeepsOrder<T>(s: seq<T>, p: T -> bool) returns (at: seq<nat>)
    ensures |at| == |Select(s, p)|
    ensures forall i :: 0 <= i < |at| ==> at[i] < |s| && Select(s, p)[i] == s[at[i]]
    ensures Increasing(at)
  {
    at := [];
    if s != [] {
      var n := |s| - 1;
      at := SelectKeepsOrder(s[..n], p);
      OneMoreIncreases(at, n);
      if p(s[n]) { at := at + [n]; }
    }
  }

  lemma {:induction false} SelectAll<T>(s: seq<T>, p: T -> bool)
    requires forall x :: x in s ==> p(x)
    ensures Select(s, p) == s
  {
    if s != [] {
      SelectAll(s[..|s| - 1], p);
      assert s == s[..|s| - 1] + [s[|s| - 1]];
    }
  }

  predicate IsEmailAttr(attr: string) {
    attr == "email" || attr == "username" || attr == "userName"
  }

  predicate SupportedUserAttr(attr: string) {
    IsEmailAttr(attr) || attr == "given_name" || attr == "family_name"
  }

  predicate UserMatches(fold: CaseFold, attr: string, value: string, u: User) {
    if IsEmailAttr(attr) then EqualFold(fold, u.userName, value)
    else if attr == "given_name" then u.name.given == value
    else attr == "family_name" && u.name.family == value
  }

  /** An unsupported attribute is only noticed while looking at a user. */
  function ApplyUserFilter(fold: CaseFold, users: seq<User>, filter: string): Filtered<User> {
    if filter == "" then Matches(users)
    else
      match ParseSimpleFilter(filter)
      case None => Rejected
      case Some(f) =>
        if f.op != "eq" || (users != [] && !SupportedUserAttr(f.attr)) then Rejected
        else Matches(Select(users, u => UserMatches(fold, f.attr, f.value, u)))
  }

  function ApplyGroupFilter(groups: seq<Group>, filter: string): Filtered<Group> {
    if filter == "" then Matches(groups)
    else
      match ParseSimpleFilter(filter)
      case None => Rejected
      case Some(f) =>
        if f.op != "eq" || f.attr != "displayName" then Rejected
        else Matches(Select(groups, (g: Group) => g.displayName == f.value))
  }
}
