/**
 What a release issues: exactly one claim per letter that fires on a signal, one per
 attachment of those letters, and nothing else (deliver_letter and the delivery loop of
 perform_release).
 */
module Deliveries {
  import opened Domain
  import opened ReleaseModel

  predicate SameDelivery(a: ClaimRow, b: ClaimRow) {
    a.event == b.event && a.subject == b.subject
  }

  ghost predicate NoRepeats(rows: seq<ClaimRow>) {
    forall i, j :: 0 <= i < j < |rows| ==> !SameDelivery(rows[i], rows[j])
  }

  /** The claim for attachment `a` of letter `l`. */
  function AttachmentClaim(w: World, e: nat, l: nat, a: nat): ClaimRow
    requires l < |w.letters|
  {
    ClaimRow(e, AttachmentOf(a), w.letters[l].recipient, w.clock)
  }

  ghost predicate ClaimsAttachment(w: World, e: nat, l: nat, n: nat, c: ClaimRow)
    requires l < |w.letters| && n <= |w.attachments|
  {
    exists a: nat :: a < n && w.attachments[a].letter == l && c == AttachmentClaim(w, e, l, a)
  }

  lemma {:induction false} AttachmentClaimsShape(w: World, e: nat, l: nat, n: nat)
    requires l < |w.letters| && n <= |w.attachments|
    ensures forall c :: c in AttachmentClaims(w, e, l, n) <==> ClaimsAttachment(w, e, l, n, c)
    ensures NoRepeats(AttachmentClaims(w, e, l, n))
  {
    if n > 0 {
      AttachmentClaimsShape(w, e, l, n - 1);
      var older := AttachmentClaims(w, e, l, n - 1);
      var newer := if w.attachments[n - 1].letter == l then [AttachmentClaim(w, e, l, n - 1)] else [];
      assert AttachmentClaims(w, e, l, n) == older + newer;
      ConcatNoRepeats(older, newer);
      forall c
        ensures c in older + newer <==> ClaimsAttachment(w, e, l, n, c)
      {
        if c in newer {
          assert c == AttachmentClaim(w, e, l, n - 1);
        }
        if ClaimsAttachment(w, e, l, n, c) {
          var a: nat :| a < n && w.attachments[a].letter == l && c == AttachmentClaim(w, e, l, a);
          if a < n - 1 {
            assert ClaimsAttachment(w, e, l, n - 1, c);
          }
        }
      }
    }
  }

  /** Every claim of one letter is for its event, now. */
  lemma LetterClaimsStamp(w: World, e: nat, l: nat)
    requires l < |w.letters|
    ensures forall c :: c in LetterClaims(w, e, l) ==> c.event == e && c.issuedAt == w.clock
  {
    AttachmentClaimsShape(w, e, l, |w.attachments|);
  }

  lemma LetterClaimsNoRepeats(w: World, e: nat, l: nat)
    requires l < |w.letters|
    ensures NoRepeats(LetterClaims(w, e, l))
  {
    AttachmentClaimsShape(w, e, l, |w.attachments|);
    ConcatNoRepeats([ClaimRow(e, LetterOf(l), w.letters[l].recipient, w.clock)],
                    AttachmentClaims(w, e, l, |w.attachments|));
  }

  lemma {:induction false} DeliveryShape(w: World, e: nat, v: nat, n: nat)
    requires n <= |w.letters|
    ensures forall c :: c in Delivery(w, e, v, n) ==>
              exists l: nat :: l < n && FiresIn(w, v, l) && c in LetterClaims(w, e, l)
    ensures forall l: nat, c :: l < n && FiresIn(w, v, l) && c in LetterClaims(w, e, l) ==>
              c in Delivery(w, e, v, n)
    ensures NoRepeats(Delivery(w, e, v, n))
  {
    if n > 0 {
      DeliveryShape(w, e, v, n - 1);
      var older, newer := Delivery(w, e, v, n - 1), LetterClaims(w, e, n - 1);
      LetterClaimsNoRepeats(w, e, n - 1);
      forall c, d | c in older && d in newer
        ensures !SameDelivery(c, d)
      {
        var l: nat :| l < n - 1 && FiresIn(w, v, l) && c in LetterClaims(w, e, l);
        AttachmentClaimsShape(w, e, l, |w.attachments|);
        AttachmentClaimsShape(w, e, n - 1, |w.attachments|);
      }
      if FiresIn(w, v, n - 1) {
        ConcatNoRepeats(older, newer);
      }
    }
  }

  lemma ConcatNoRepeats(a: seq<ClaimRow>, b: seq<ClaimRow>)
    requires NoRepeats(a) && NoRepeats(b)
    requires forall c, d :: c in a && d in b ==> !SameDelivery(c, d)
    ensures NoRepeats(a + b)
  {
    forall i, j | 0 <= i < j < |a + b|
      ensures !SameDelivery((a + b)[i], (a + b)[j])
    {
      if i < |a| <= j {
        assert a[i] in a && b[j - |a|] in b;
      }
    }
  }

  /** Every claim of a delivery is for its event, now. */
  lemma DeliveryStamp(w: World, e: nat, v: nat)
    ensures forall c :: c in Delivery(w, e, v, |w.letters|) ==> c.event == e && c.issuedAt == w.clock
  {
    DeliveryShape(w, e, v, |w.letters|);
    forall c | c in Delivery(w, e, v, |w.letters|)
      ensures c.event == e && c.issuedAt == w.clock
    {
      var l: nat :| l < |w.letters| && FiresIn(w, v, l) && c in LetterClaims(w, e, l);
      AttachmentClaimsShape(w, e, l, |w.attachments|);
    }
  }

  lemma PrefixNoRepeats(rows: seq<ClaimRow>, k: nat)
    requires NoRepeats(rows)
    ensures NoRepeats(Prefix(rows, k))
    ensures forall c :: c in Prefix(rows, k) ==> c in rows
  {}

  /** A release of vault `v` under event `e` owes this claim: the vault's letter fires on a signal, or
      the attachment belongs to such a letter, and the claim is bound to that event, the letter's
      current address and the present. */
  predicate Owed(w: World, e: nat, v: nat, c: ClaimRow) {
    match c.subject
    case LetterOf(l) => FiresIn(w, v, l) && c == ClaimRow(e, c.subject, w.letters[l].recipient, w.clock)
    case AttachmentOf(a) =>
      a < |w.attachments| && FiresIn(w, v, w.attachments[a].letter)
      && c == ClaimRow(e, c.subject, w.letters[w.attachments[a].letter].recipient, w.clock)
  }

  lemma LetterClaimsOwed(w: World, e: nat, v: nat, l: nat, c: ClaimRow)
    requires FiresIn(w, v, l)
    ensures c in LetterClaims(w, e, l)
            <==> Owed(w, e, v, c)
                 && l == match c.subject case LetterOf(k) => k case AttachmentOf(a) => w.attachments[a].letter
  {
    AttachmentClaimsShape(w, e, l, |w.attachments|);
    if c.subject.AttachmentOf? && Owed(w, e, v, c) && w.attachments[c.subject.attachment].letter == l {
      assert c == AttachmentClaim(w, e, l, c.subject.attachment);
    }
  }

  /** A release issues exactly what it owes, each claim once. */
  lemma DeliveryExact(w: World, e: nat, v: nat)
    ensures forall c :: c in Delivery(w, e, v, |w.letters|) <==> Owed(w, e, v, c)
    ensures NoRepeats(Delivery(w, e, v, |w.letters|))
  {
    DeliveryShape(w, e, v, |w.letters|);
    forall c
      ensures c in Delivery(w, e, v, |w.letters|) <==> Owed(w, e, v, c)
    {
      if c in Delivery(w, e, v, |w.letters|) {
        var l: nat :| l < |w.letters| && FiresIn(w, v, l) && c in LetterClaims(w, e, l);
        LetterClaimsOwed(w, e, v, l, c);
      }
      if Owed(w, e, v, c) {
        var l := match c.subject case LetterOf(k) => k case AttachmentOf(a) => w.attachments[a].letter;
        LetterClaimsOwed(w, e, v, l, c);
      }
    }
  }

  /** perform_release, when no delivery fails, adds exactly the owed claims and no others. */
  lemma PerformDelivers(w: World, t: Ticket, stop: Stop)
    requires t in w.performing && !stop.DeliveryFails?
    ensures var claims := PerformStep(w, t, stop).claims;
      && w.claims <= claims
      && (forall c :: c in claims[|w.claims|..] <==> Owed(w, t.event, t.vault, c))
      && NoRepeats(claims[|w.claims|..])
  {
    DeliveryExact(w, t.event, t.vault);
    assert PerformStep(w, t, stop).claims == w.claims + Delivery(w, t.event, t.vault, |w.letters|);
  }

  // ---- Letter by letter ----

  lemma {:induction false} CountOf(rows: seq<ClaimRow>, c: ClaimRow)
    requires NoRepeats(rows)
    ensures multiset(rows)[c] == if c in rows then 1 else 0
  {
    if rows != [] {
      var n := |rows| - 1;
      assert rows == rows[..n] + [rows[n]];
      CountOf(rows[..n], c);
      assert forall i :: 0 <= i < n ==> rows[..n][i] != rows[n];
    }
  }

  /** The release of vault `v` under event `e` sends this letter: it is in the vault, and its mode is one
      of the two that a signal releases. */
  predicate Sends(w: World, v: nat, l: nat) {
    l < |w.letters| && w.letters[l].vault == v && w.letters[l].mode in {SignalOrScheduled, SignalOnly}
  }

  /** `rows` are one claim for each letter it sends and one for each of their attachments, now, to the
      letter's address; none for any other letter, and nothing else. */
  ghost predicate IssuesByMode(w: World, e: nat, v: nat, rows: seq<ClaimRow>) {
    && (forall l: nat :: l < |w.letters| ==>
          multiset(rows)[ClaimRow(e, LetterOf(l), w.letters[l].recipient, w.clock)] == if Sends(w, v, l) then 1 else 0)
    && (forall a: nat :: a < |w.attachments| && w.attachments[a].letter < |w.letters| ==>
          multiset(rows)[ClaimRow(e, AttachmentOf(a), w.letters[w.attachments[a].letter].recipient, w.clock)]
          == if Sends(w, v, w.attachments[a].letter) then 1 else 0)
    && (forall c :: c in rows ==>
          match c.subject
          case LetterOf(l) => l < |w.letters| && c == ClaimRow(e, LetterOf(l), w.letters[l].recipient, w.clock)
          case AttachmentOf(a) =>
            a < |w.attachments| && w.attachments[a].letter < |w.letters|
            && c == ClaimRow(e, AttachmentOf(a), w.letters[w.attachments[a].letter].recipient, w.clock))
  }

  lemma DeliveryByMode(w: World, e: nat, v: nat)
    ensures IssuesByMode(w, e, v, Delivery(w, e, v, |w.letters|))
  {
    DeliveryExact(w, e, v);
    hide Delivery, NoRepeats;
    var rows := Delivery(w, e, v, |w.letters|);
    forall c
      ensures multiset(rows)[c] == if Owed(w, e, v, c) then 1 else 0
    {
      CountOf(rows, c);
    }
  }

  /** A perform_release without delivery failure issues exactly that. */
  lemma ReleaseIssues(w: World, t: Ticket, stop: Stop)
    requires t in w.performing && !stop.DeliveryFails?
    ensures var claims := PerformStep(w, t, stop).claims;
      w.claims <= claims && IssuesByMode(w, t.event, t.vault, claims[|w.claims|..])
  {
    hide Delivery, IssuesByMode;
    DeliveryByMode(w, t.event, t.vault);
    assert PerformStep(w, t, stop).claims == w.claims + Delivery(w, t.event, t.vault, |w.letters|);
  }

  /** `rows` are the letter's claim and then one for each of its attachments, now, to `recipient`. */
  ghost predicate IssuesLetter(w: World, e: nat, l: nat, recipient: string, rows: seq<ClaimRow>) {
    && rows != [] && rows[0] == ClaimRow(e, LetterOf(l), recipient, w.clock)
    && (forall a: nat :: a < |w.attachments| ==>
          multiset(rows)[ClaimRow(e, AttachmentOf(a), recipient, w.clock)]
          == if w.attachments[a].letter == l then 1 else 0)
    && (forall i :: 1 <= i < |rows| ==>
          rows[i].subject.AttachmentOf? && rows[i].subject.attachment < |w.attachments|
          && rows[i] == ClaimRow(e, rows[i].subject, recipient, w.clock))
  }

  lemma LetterIssues(w: World, e: nat, l: nat)
    requires l < |w.letters|
    ensures IssuesLetter(w, e, l, w.letters[l].recipient, LetterClaims(w, e, l))
  {
    var rows := LetterClaims(w, e, l);
    LetterClaimsNoRepeats(w, e, l);
    forall a: nat | a < |w.attachments|
      ensures multiset(rows)[AttachmentClaim(w, e, l, a)] == if w.attachments[a].letter == l then 1 else 0
    {
      CountOf(rows, AttachmentClaim(w, e, l, a));
      AttachmentIssued(w, e, l, a);
    }
    hide LetterClaims, NoRepeats;
    forall i | 1 <= i < |rows|
      ensures rows[i].subject.AttachmentOf? && rows[i].subject.attachment < |w.attachments|
      ensures rows[i] == ClaimRow(e, rows[i].subject, w.letters[l].recipient, w.clock)
    {
      OnlyAttachments(w, e, l, i);
    }
    LetterFirst(w, e, l);
  }

  lemma AttachmentIssued(w: World, e: nat, l: nat, a: nat)
    requires l < |w.letters| && a < |w.attachments|
    ensures AttachmentClaim(w, e, l, a) in LetterClaims(w, e, l) <==> w.attachments[a].letter == l
  {
    AttachmentClaimsShape(w, e, l, |w.attachments|);
    hide AttachmentClaims;
  }

  lemma OnlyAttachments(w: World, e: nat, l: nat, i: nat)
    requires l < |w.letters| && 1 <= i < |LetterClaims(w, e, l)|
    ensures ClaimsAttachment(w, e, l, |w.attachments|, LetterClaims(w, e, l)[i])
  {
    AttachmentClaimsShape(w, e, l, |w.attachments|);
    hide AttachmentClaims;
    assert LetterClaims(w, e, l)[i] == AttachmentClaims(w, e, l, |w.attachments|)[i - 1];
  }

  lemma LetterFirst(w: World, e: nat, l: nat)
    requires l < |w.letters|
    ensures LetterClaims(w, e, l) != []
    ensures LetterClaims(w, e, l)[0] == ClaimRow(e, LetterOf(l), w.letters[l].recipient, w.clock)
  {
    hide AttachmentClaims;
  }
}
