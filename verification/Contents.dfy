/** What puts and appends leave behind, by their places in a sequence. */
module Contents {

  datatype Edit = Put(value: string) | Append(value: string) | Keep

  /** The place right behind the last put, or 0 if there is none. */
  function AfterPut(edits: seq<Edit>): (p: nat)
    ensures p <= |edits|
    ensures p > 0 ==> edits[p - 1].Put?
    ensures forall i :: p <= i < |edits| ==> !edits[i].Put?
  {
    if edits == [] then 0
    else if edits[|edits| - 1].Put? then |edits|
    else AfterPut(edits[..|edits| - 1])
  }

  /** The appended values, in their order. */
  function Joined(edits: seq<Edit>): string {
    if edits == [] then ""
    else Joined(edits[..|edits| - 1]) + (if edits[|edits| - 1].Append? then edits[|edits| - 1].value else "")
  }

  /** The value of the last put, or nothing if there is none, followed by the values appended after it. */
  function Content(edits: seq<Edit>): string {
    var p := AfterPut(edits);
    (if p == 0 then "" else edits[p - 1].value) + Joined(edits[p..])
  }

  /** The place behind the last put is the only one with a put in front of it, or nothing, and no put behind it. */
  lemma AfterPutIs(edits: seq<Edit>, p: nat)
    requires p <= |edits| && (p > 0 ==> edits[p - 1].Put?) && forall i :: p <= i < |edits| ==> !edits[i].Put?
    ensures AfterPut(edits) == p
  {
    var _ := AfterPut(edits);
  }

  lemma JoinedOneMore(edits: seq<Edit>, e: Edit)
    ensures Joined(edits + [e]) == Joined(edits) + if e.Append? then e.value else ""
  {
    assert (edits + [e])[..|edits|] == edits;
  }

  lemma ContentAfter(edits: seq<Edit>, p: nat)
    requires p <= |edits| && (p > 0 ==> edits[p - 1].Put?) && forall i :: p <= i < |edits| ==> !edits[i].Put?
    ensures Content(edits) == (if p == 0 then "" else edits[p - 1].value) + Joined(edits[p..])
  {
    AfterPutIs(edits, p);
    hide AfterPut, Joined;
  }

  lemma ContentOneMore(edits: seq<Edit>, e: Edit)
    ensures Content(edits + [e]) ==
      match e
      case Put(value) => value
      case Append(value) => Content(edits) + value
      case Keep => Content(edits)
  {
    hide Content, Joined;
    var more := edits + [e];
    if e.Put? {
      ContentAfter(more, |more|);
      NothingJoined(more);
    } else {
      var p := AfterPut(edits);
      hide AfterPut;
      ContentAfter(edits, p);
      ContentAfter(more, p);
      JoinedOneMore(edits[p..], e);
      assert more[p..] == edits[p..] + [e];
      var base, tail := if p == 0 then "" else edits[p - 1].value, if e.Append? then e.value else "";
      assert base + (Joined(edits[p..]) + tail) == base + Joined(edits[p..]) + tail;
    }
  }

  lemma NothingJoined(edits: seq<Edit>)
    ensures Joined(edits[|edits|..]) == ""
  {
  }
}
