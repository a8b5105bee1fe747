/**
 * The roster page of the prototype client over fixed sample athletes: the
 * name or sport search, the initials avatar and the performance badge.
 */
module Roster {
  import Seqs
  import Text

  /** A sample athlete, with the fields the roster reads; `change` is the recent performance change in percent. */
  datatype RosterAthlete = RosterAthlete(id: string, name: string, sport: string, change: int)

  /** The search: a case-insensitive part of the name or of the sport. */
  predicate Matches(a: RosterAthlete, searchTerm: string) {
    Text.IncludesIgnoringCase(a.name, searchTerm) || Text.IncludesIgnoringCase(a.sport, searchTerm)
  }

  /** `filteredAthletes`: the athletes the search matches, in their order. */
  function FilteredAthletes(athletes: seq<RosterAthlete>, searchTerm: string): (r: seq<RosterAthlete>)
    ensures forall a :: a in r <==> a in athletes && Matches(a, searchTerm)
    ensures Seqs.IsSubseq(r, athletes)
  {
    var p := (a: RosterAthlete) => Matches(a, searchTerm);
    assert Seqs.IsSubseq(Seqs.Filter(athletes, p), athletes) by { Seqs.FilterIsSubseq(athletes, p); }
    Seqs.Filter(athletes, p)
  }

  /** The empty search lists every athlete, in order. */
  lemma EmptySearchKeepsAll(athletes: seq<RosterAthlete>)
    ensures FilteredAthletes(athletes, "") == athletes
  {
    forall i | 0 <= i < |athletes|
      ensures Matches(athletes[i], "")
    {
      Text.IncludesIgnoringCaseEmpty(athletes[i].name);
    }
    Seqs.FilterKeepsAll(athletes, (a: RosterAthlete) => Matches(a, ""));
  }

  /** The first character of each non-empty piece; an empty piece adds nothing (`undefined` joins as ""). */
  function FirstChars(parts: seq<string>): (r: string)
    ensures |r| <= |parts|
  {
    if parts == [] then []
    else (if parts[0] == [] then [] else [parts[0][0]]) + FirstChars(parts[1..])
  }

  /** The avatar initials: the first character of each space-separated piece of the name. */
  function Initials(name: string): (r: string)
    ensures |r| <= |name| + 1
    ensures name != [] && name[0] != ' ' ==> r != [] && r[0] == name[0]
  {
    var parts := Text.Split(name, ' ');
    assert |parts| <= |name| + 1 by { SplitCount(name, ' '); }
    FirstChars(parts)
  }

  lemma {:induction false} SplitCount(s: string, c: char)
    ensures |Text.Split(s, c)| <= |s| + 1
  {
    if s != [] {
      SplitCount(s[1..], c);
    }
  }

  /** For a name made of words separated by single spaces, the initials are the words' first letters. */
  lemma InitialsOfWords(words: seq<string>)
    requires |words| >= 1
    requires forall i :: 0 <= i < |words| ==> words[i] != [] && ' ' !in words[i]
    ensures Initials(Text.Join(words, ' ')) == seq(|words|, i requires 0 <= i < |words| => words[i][0])
  {
    Text.SplitJoin(words, ' ');
    FirstCharsOfWords(words);
  }

  lemma {:induction false} FirstCharsOfWords(words: seq<string>)
    requires forall i :: 0 <= i < |words| ==> words[i] != []
    ensures FirstChars(words) == seq(|words|, i requires 0 <= i < |words| => words[i][0])
  {
    if words != [] {
      FirstCharsOfWords(words[1..]);
    }
  }

  datatype BadgeVariant = Success | Destructive

  /** The performance badge: its variant and its sign prefix. */
  function Badge(change: int): (r: (BadgeVariant, string))
    ensures r.0 == Success <==> change > 0
    ensures r.1 == "+" <==> change > 0
    ensures change <= 0 ==> r == (Destructive, "")
  {
    if change > 0 then (Success, "+") else (Destructive, "")
  }
}
