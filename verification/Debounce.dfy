/**
  The three-in-a-row voter that confirms a device's identity and shape, and the
  history it refines: the latest triple of equal sightings since the last silence.
 */
module Debounce {
  import opened Types

  /** How long a device can go unheard before it counts as offline. */
  const OFFLINE_AFTER: nat := 15 * SECOND

  const AGREE: nat := 3

  /** A value seen but not yet believed, with how often in a row. */
  datatype Candidate<T> = Candidate(value: T, count: nat)

  /** The value believed and what is being said against it. */
  datatype Voter<T> = Voter(held: T, candidate: Option<Candidate<T>>)

  datatype Sighting<T> = Sighting(value: T, at: Time)

  /** The candidate after one more contrary sighting, and the value agreed on if that was the third. */
  function Agree<T(==)>(candidate: Option<Candidate<T>>, seen: T): (Option<Candidate<T>>, Option<T>) {
    if candidate.Some? && candidate.value.value == seen then
      if candidate.value.count + 1 >= AGREE then (None, Some(seen))
      else (Some(Candidate(seen, candidate.value.count + 1)), None)
    else (Some(Candidate(seen, 1)), None)
  }

  function Vote<T(==)>(voter: Voter<T>, seen: T): Voter<T> {
    if seen == voter.held then voter.(candidate := None)
    else
      var (candidate, agreed) := Agree(voter.candidate, seen);
      Voter(if agreed.Some? then agreed.value else voter.held, candidate)
  }

  /** The voter after an unbroken stretch of values. */
  function VoteAll<T(==)>(values: seq<T>): Voter<T>
    requires values != []
  {
    if |values| == 1 then Voter(values[0], None) else Vote(VoteAll(Front(values)), Last(values))
  }

  /** Sighting `i` is the first, or the first after a silence of more than 15 seconds. */
  predicate Cut<T>(history: seq<Sighting<T>>, i: nat)
    requires i < |history|
  {
    i == 0 || Since(history[i].at, history[i - 1].at) > 15 * SECOND
  }

  /** The voter after a whole history, started afresh at every cut. */
  function Watch<T(==)>(history: seq<Sighting<T>>): Voter<T>
    requires history != []
  {
    if Cut(history, |history| - 1) then Voter(Last(history).value, None)
    else Vote(Watch(Front(history)), Last(history).value)
  }

  /** The values from sighting `start` on. */
  function Stretch<T>(history: seq<Sighting<T>>, start: nat): seq<T>
    requires start <= |history|
  {
    seq(|history| - start, i requires 0 <= i < |history| - start => history[start + i].value)
  }

  /** `start` is where the last unbroken stretch of the history begins. */
  ghost predicate LastCut<T>(history: seq<Sighting<T>>, start: nat) {
    start < |history| && Cut(history, start) && forall i :: start < i < |history| ==> !Cut(history, i)
  }

  /** Values `i - 2` to `i` agree. */
  predicate Triple<T(==)>(values: seq<T>, i: int) {
    2 <= i < |values| && values[i] == values[i - 1] == values[i - 2]
  }

  /** The value of the latest three equal values in a row, or the first value if there are no such three. */
  function LatestTriple<T(==)>(values: seq<T>): T
    requires values != []
  {
    if |values| == 1 || Triple(values, |values| - 1) then
      Last(values)
    else LatestTriple(Front(values))
  }

  /**
    What a history of sightings confirms: in its last unbroken stretch, the value of the
    latest three equal sightings in a row, or the stretch's first sighting.
   */
  ghost predicate Confirms<T(!new)>(history: seq<Sighting<T>>, value: T) {
    exists start: nat :: LastCut(history, start) && LatestTriple(Stretch(history, start)) == value
  }

  /** What the candidate knows of the values so far: who is being doubted, and how many times in a row. */
  ghost predicate CandidateFits<T>(values: seq<T>, voter: Voter<T>) {
    match voter.candidate
    case None => values != [] && Last(values) == voter.held
    case Some(Candidate(value, count)) =>
      && value != voter.held
      && 1 <= count < AGREE
      && count < |values|
      && (forall i :: |values| - count <= i < |values| ==> values[i] == value)
      && values[|values| - count - 1] != value
  }

  lemma {:induction false} VoteAllFits<T>(values: seq<T>)
    requires values != []
    ensures VoteAll(values).held == LatestTriple(values)
    ensures CandidateFits(values, VoteAll(values))
  {
    if |values| > 1 {
      VoteAllFits(Front(values));
    }
  }

  lemma {:induction false} WatchIsVoteAll<T>(history: seq<Sighting<T>>) returns (start: nat)
    requires history != []
    ensures LastCut(history, start) && Watch(history) == VoteAll(Stretch(history, start))
  {
    if Cut(history, |history| - 1) {
      start := |history| - 1;
    } else {
      var before := Front(history);
      start := WatchIsVoteAll(before);
      assert forall i :: 0 <= i < |before| ==> Cut(history, i) == Cut(before, i);
      assert Front(Stretch(history, start)) == Stretch(before, start);
    }
  }

  /** The voter refines the history function, whatever was sighted and when. */
  lemma VoterConfirms<T(!new)>(history: seq<Sighting<T>>)
    requires history != []
    ensures Confirms(history, Watch(history).held)
  {
    var start := WatchIsVoteAll(history);
    VoteAllFits(Stretch(history, start));
  }

  /** `Confirms` is a function of the history: it admits one value only. */
  lemma ConfirmsOnlyOne<T(!new)>(history: seq<Sighting<T>>, a: T, b: T)
    requires Confirms(history, a) && Confirms(history, b)
    ensures a == b
  {
    var s: nat :| LastCut(history, s) && LatestTriple(Stretch(history, s)) == a;
    var t: nat :| LastCut(history, t) && LatestTriple(Stretch(history, t)) == b;
  }

  /** By index: values `i - 2` to `i` agree and no later three do, or no three ever do and the first stands. */
  lemma {:induction false} LatestTripleAt<T>(values: seq<T>, i: nat)
    requires i < |values| && (i == 0 || Triple(values, i))
    requires forall j :: i < j < |values| ==> !Triple(values, j)
    ensures LatestTriple(values) == values[i]
  {
    if i + 1 < |values| {
      assert forall j :: 0 <= j < |values| - 1 ==> Triple(Front(values), j) == Triple(values, j);
      LatestTripleAt(Front(values), i);
    }
  }
}
