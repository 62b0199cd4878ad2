/**
 * `CollaboratePage`: an educator's view of marketers to work with, a search
 * over them, and the invitations marketers have sent, which can be accepted.
 */
module Collaborate {
  import Seqs
  import Text

  datatype Marketer = Marketer(id: string, name: string, specialization: string, videosProduced: int, rating: real)

  datatype InvitationStatus = Pending | Accepted

  datatype Invitation = Invitation(id: string, marketerId: string, marketerName: string, status: InvitationStatus)

  const Marketers: seq<Marketer> := [
    Marketer("m1", "Media Maven Co.", "YouTube Growth", 320, 4.8),
    Marketer("m2", "EduBoost Studio", "Shorts & Reels", 180, 4.6),
    Marketer("m3", "CourseCraft Media", "Course Trailers", 95, 4.7),
    Marketer("m4", "ViralLearn Agency", "Performance Marketing", 240, 4.5)
  ]

  /** The invitations the simulated fetch delivers. */
  const FetchedInvitations: seq<Invitation> := [
    Invitation("inv-m2", "m2", "EduBoost Studio", Pending),
    Invitation("inv-m4", "m4", "ViralLearn Agency", Pending)
  ]

  /** `words.map(s => s[0]).join('')`: the first character of each word; an empty word contributes nothing. */
  function Heads(words: seq<string>): (r: string)
    ensures |r| <= |words|
    decreases |words|
  {
    if words == [] then ""
    else (if words[0] == "" then "" else [words[0][0]]) + Heads(words[1..])
  }

  /** A word contributes its first character, and an empty word contributes nothing. */
  lemma HeadsSingle(w: string)
    ensures Heads([w]) == if w == "" then "" else [w[0]]
  {
    assert [w][1..] == [];
  }

  /** The heads of two word lists placed one after the other are their heads placed one after the other. */
  lemma {:induction false} HeadsAppend(a: seq<string>, b: seq<string>)
    ensures Heads(a + b) == Heads(a) + Heads(b)
    decreases |a|
  {
    if a != [] {
      var h := if a[0] == "" then "" else [a[0][0]];
      assert (a + b)[0] == a[0] && (a + b)[1..] == a[1..] + b;
      HeadsAppend(a[1..], b);
      assert Heads(a + b) == h + (Heads(a[1..]) + Heads(b));
    } else {
      assert a + b == b;
    }
  }

  /** `name.split(' ').map(s => s[0]).join('').slice(0, 2).toUpperCase()`. */
  function Initials(name: string): (r: string)
    ensures |r| <= 2
    ensures forall i :: 0 <= i < |r| ==> !('a' <= r[i] <= 'z')
  {
    var heads := Heads(Text.Split(name, ' '));
    Text.Upper(if |heads| <= 2 then heads else heads[..2])
  }

  /** The initials of a name of two or more space-free words are the first letters of the first two words. */
  lemma InitialsOfWords(first: string, second: string, rest: string)
    requires first != "" && second != "" && ' ' !in first && ' ' !in second
    ensures Initials(first + " " + second + rest) == Text.Upper([first[0], second[0]])
  {
    var name := first + " " + second + rest;
    assert name == first + [' '] + (second + rest);
    Text.SplitAfterWord(first, ' ', second + rest);
    var tail := Text.Split(second + rest, ' ');
    assert tail[0] == (second + rest)[..|tail[0]|];
    assert (second + rest)[0] == second[0] && second[0] in second;
    assert |tail[0]| >= 1;
    assert tail[0][0] == second[0];
    var words := [first] + tail;
    assert words[1..] == tail;
    assert tail == [tail[0]] + tail[1..];
    assert Heads(tail) == [second[0]] + Heads(tail[1..]);
    assert Heads(words) == [first[0]] + Heads(tail);
  }

  /** The initials of a single space-free word are its first letter, upper-cased. */
  lemma InitialsOfOneWord(w: string)
    requires w != "" && ' ' !in w
    ensures Initials(w) == Text.Upper([w[0]])
  {
    assert Text.Split(w, ' ') == [w];
    HeadsSingle(w);
  }

  /** The search's match: the lower-cased name or specialisation contains the lower-cased query. */
  function MatchesQuery(query: string): Marketer -> bool {
    (m: Marketer) => Text.IncludesIgnoringCase(m.name, query) || Text.IncludesIgnoringCase(m.specialization, query)
  }

  /** The `marketers` list: all of them for a blank search, else those matching the untrimmed query. */
  function SearchMarketers(marketers: seq<Marketer>, search: string): (r: seq<Marketer>)
    ensures Text.IsBlank(search) ==> r == marketers
    ensures !Text.IsBlank(search) ==> forall m :: m in r <==> m in marketers && MatchesQuery(search)(m)
    ensures Seqs.IsSubsequence(r, marketers)
  {
    if Text.IsBlank(search) then
      assert Seqs.IsSubsequence(Seqs.Filter(marketers, (m: Marketer) => true), marketers);
      Seqs.FilterKeepsAll(marketers, (m: Marketer) => true);
      marketers
    else Seqs.Filter(marketers, MatchesQuery(search))
  }

  function IsAccepted(): Invitation -> bool {
    (i: Invitation) => i.status == Accepted
  }

  function IsPending(): Invitation -> bool {
    (i: Invitation) => i.status == Pending
  }

  /** `connections`: the accepted invitations, in order. */
  function Connections(invitations: seq<Invitation>): (r: seq<Invitation>)
    ensures forall i :: i in r <==> i in invitations && i.status == Accepted
    ensures forall i :: multiset(r)[i] == if i.status == Accepted then multiset(invitations)[i] else 0
  {
    Seqs.FilterCounts(invitations, IsAccepted());
    Seqs.Filter(invitations, IsAccepted())
  }

  /** `pending`: the pending invitations, in order. */
  function PendingOnes(invitations: seq<Invitation>): (r: seq<Invitation>)
    ensures forall i :: i in r <==> i in invitations && i.status == Pending
    ensures forall i :: multiset(r)[i] == if i.status == Pending then multiset(invitations)[i] else 0
  {
    Seqs.FilterCounts(invitations, IsPending());
    Seqs.Filter(invitations, IsPending())
  }

  /** `accept(invId)`: the invitations with the id become accepted; every other stays as it was. */
  function Accept(invitations: seq<Invitation>, id: string): (r: seq<Invitation>)
    ensures |r| == |invitations|
    ensures forall k :: 0 <= k < |invitations| && invitations[k].id != id ==> r[k] == invitations[k]
    ensures forall k :: 0 <= k < |invitations| && invitations[k].id == id ==> r[k] == invitations[k].(status := Accepted)
  {
    Seqs.MapWhere(invitations, (i: Invitation) => i.id == id, (i: Invitation) => i.(status := Accepted))
  }

  /** Accepting twice is accepting once. */
  lemma AcceptIdempotent(invitations: seq<Invitation>, id: string)
    ensures Accept(Accept(invitations, id), id) == Accept(invitations, id)
  {
  }

  /** After accepting, no invitation with that id is pending. */
  lemma AcceptLeavesNonePending(invitations: seq<Invitation>, id: string)
    ensures forall i :: i in PendingOnes(Accept(invitations, id)) ==> i.id != id
  {
    var r := Accept(invitations, id);
    forall i | i in PendingOnes(r) ensures i.id != id {
      var k :| 0 <= k < |r| && r[k] == i;
    }
  }

  /** Connections and pending invitations split the list between them: each invitation is in exactly one. */
  lemma {:induction false} ConnectionsPendingPartition(invitations: seq<Invitation>)
    ensures |Connections(invitations)| + |PendingOnes(invitations)| == |invitations|
    decreases |invitations|
  {
    if invitations != [] {
      var s := invitations;
      assert s == [s[0]] + s[1..];
      Seqs.FilterAppend([s[0]], s[1..], IsAccepted());
      Seqs.FilterAppend([s[0]], s[1..], IsPending());
      ConnectionsPendingPartition(s[1..]);
    }
  }

  /** Every fetched invitation starts out pending. */
  lemma FetchedAllPending()
    ensures PendingOnes(FetchedInvitations) == FetchedInvitations && Connections(FetchedInvitations) == []
  {
    Seqs.FilterKeepsAll(FetchedInvitations, IsPending());
    Seqs.FilterKeepsNone(FetchedInvitations, IsAccepted());
  }

  /** The page's state. */
  class Page {
    var search: string
    var loading: bool
    var invitations: seq<Invitation>

    constructor ()
      ensures search == "" && loading && invitations == []
    {
      search := "";
      loading := true;
      invitations := [];
    }

    /** The simulated fetch completing. */
    method FinishLoading()
      modifies this`invitations, this`loading
      ensures invitations == FetchedInvitations && !loading
    {
      invitations := FetchedInvitations;
      loading := false;
    }

    method SetSearch(text: string)
      modifies this`search
      ensures search == text
    {
      search := text;
    }

    /** The marketers shown for the current search. */
    function Shown(): (r: seq<Marketer>)
      reads this
      ensures Seqs.IsSubsequence(r, Marketers)
    {
      SearchMarketers(Marketers, search)
    }

    method AcceptInvitation(id: string)
      modifies this`invitations
      ensures invitations == Accept(old(invitations), id)
    {
      invitations := Accept(invitations, id);
    }
  }
}
