/** The helpers of client/src/components/ParticipantsList.tsx: a
    participant's initials, the colour of their avatar, and the three ways the
    list can render. */
module ParticipantsList {
  import opened Types
  import SeqUtil
  import Text

  /** `s.split(' ')`: the pieces between single spaces, empty ones included;
      the empty string gives one empty piece. */
  function Split(s: string): (parts: seq<string>)
    ensures |parts| >= 1
    ensures forall i, j :: 0 <= i < |parts| && 0 <= j < |parts[i]| ==> parts[i][j] != ' '
  {
    if s == [] then [""]
    else
      var rest := Split(s[1..]);
      if s[0] == ' ' then [""] + rest
      else
        var r := [[s[0]] + rest[0]] + rest[1..];
        assert forall i :: 1 <= i < |r| ==> r[i] == rest[i];
        r
  }

  /** `parts.join(' ')`. */
  function JoinWithSpace(parts: seq<string>): string
    requires |parts| >= 1
  {
    if |parts| == 1 then parts[0] else parts[0] + " " + JoinWithSpace(parts[1..])
  }

  /** Splitting on spaces loses nothing: joining the pieces gives the name back. */
  lemma {:induction false} SplitJoinRoundTrip(s: string)
    ensures JoinWithSpace(Split(s)) == s
  {
    if s != [] {
      SplitJoinRoundTrip(s[1..]);
      var rest := Split(s[1..]);
      if s[0] == ' ' {
        assert Split(s)[1..] == rest;
      } else {
        var r := Split(s);
        assert r[1..] == rest[1..];
        if |rest| > 1 {
          assert JoinWithSpace(rest) == rest[0] + " " + JoinWithSpace(rest[1..]);
        }
        assert s == [s[0]] + s[1..];
      }
    }
  }

  /** `parts.map(part => part[0]).join('')`: the first character of each
      piece; an empty piece gives `undefined`, which `join` writes as nothing. */
  function Heads(parts: seq<string>): (r: string)
    ensures |r| == |SeqUtil.Filter(parts, (p: string) => p != "")|
  {
    if parts == [] then []
    else (if parts[0] == "" then [] else [parts[0][0]]) + Heads(parts[1..])
  }

  /** The characters of `s` that begin a word: not a space, and first or just
      after a space (`atStart` says whether the position before `s` counts as
      a word boundary). */
  function WordStarts(s: string, atStart: bool): string
  {
    if s == [] then []
    else (if s[0] != ' ' && atStart then [s[0]] else []) + WordStarts(s[1..], s[0] == ' ')
  }

  /** The heads of the pieces are exactly the word-initial characters: the
      first piece contributes only at a boundary, the others always. */
  lemma {:induction false} HeadsAreWordStarts(s: string)
    ensures Heads(Split(s)) == WordStarts(s, true)
    ensures Heads(Split(s)[1..]) == WordStarts(s, false)
  {
    if s != [] {
      HeadsAreWordStarts(s[1..]);
      var rest := Split(s[1..]);
      if s[0] == ' ' {
        assert Split(s)[1..] == rest;
        assert Heads(Split(s)) == Heads(rest);
      } else {
        var r := Split(s);
        assert r[1..] == rest[1..];
        assert Heads(r) == [s[0]] + Heads(rest[1..]);
      }
    }
  }

  /** `getInitials`. */
  function Initials(name: string): (r: string)
    ensures |r| == |SeqUtil.Filter(Split(name), (p: string) => p != "")|
    ensures r == Text.Upper(WordStarts(name, true))
  {
    HeadsAreWordStarts(name);
    Text.Upper(Heads(Split(name)))
  }

  /** The seven avatar classes. */
  const Colors: seq<string> := [
    "bg-blue-100 text-blue-600",
    "bg-green-100 text-green-600",
    "bg-purple-100 text-purple-600",
    "bg-red-100 text-red-600",
    "bg-yellow-100 text-yellow-600",
    "bg-pink-100 text-pink-600",
    "bg-indigo-100 text-indigo-600"
  ]

  /** `name.charCodeAt(0) % colors.length`; for the empty name the code is
      NaN and no class is found. */
  function ColorIndex(name: string): (r: Option<nat>)
    ensures name == [] <==> r.None?
    ensures r.Some? ==> r.value < |Colors| && r.value == (name[0] as int) % 7
  {
    if name == [] then None else Some((name[0] as int) % |Colors|)
  }

  function ColorClass(name: string): (r: Option<string>)
    ensures r.Some? ==> r.value in Colors
    ensures name == [] <==> r.None?
  {
    match ColorIndex(name)
    case None => None
    case Some(i) => Some(Colors[i])
  }

  /** The colour depends on the first character only. */
  lemma SameFirstCharSameColor(a: string, b: string)
    requires a != [] && b != [] && a[0] == b[0]
    ensures ColorClass(a) == ColorClass(b)
  {
  }

  datatype Row = Row(id: string, name: string, initials: string, color: Option<string>)

  datatype ListView = Loading | NoParticipants | Rows(rows: seq<Row>)

  function RowOf(p: Participant): Row
  {
    Row(p.id, p.name, Initials(p.name), ColorClass(p.name))
  }

  /** The three renders: no list yet, an empty list, or one row per
      participant in the given order. */
  function View(participants: Option<seq<Participant>>): (v: ListView)
    ensures participants.None? <==> v.Loading?
    ensures participants.Some? && participants.value == [] <==> v.NoParticipants?
    ensures v.Rows? ==> (|v.rows| == |participants.value| &&
              forall i :: 0 <= i < |v.rows| ==> v.rows[i] == RowOf(participants.value[i]))
  {
    match participants
    case None => Loading
    case Some(ps) => if ps == [] then NoParticipants else Rows(SeqUtil.Map(ps, RowOf))
  }

  /** "a  b" (two spaces) has the initials "AB": the empty piece between
      the spaces contributes nothing. */
  lemma InitialsExample()
    ensures Initials("a  b") == "AB"
    ensures Initials("") == ""
  {
    assert WordStarts("b", false) == [];
    assert WordStarts(" b", false) == WordStarts("b", true) == "b";
    assert WordStarts("  b", false) == WordStarts(" b", true) == "b";
    assert WordStarts("a  b", true) == "ab";
    UpperExample();
  }

  lemma UpperExample()
    ensures Text.Upper("ab") == "AB"
  {
    assert Text.UpperChar('a') == 'A' && Text.UpperChar('b') == 'B';
    assert Text.Upper("ab") == [Text.UpperChar("ab"[0]), Text.UpperChar("ab"[1])];
  }
}
