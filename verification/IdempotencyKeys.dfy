/** The text of every idempotency key: those the code builds for its movements, and a customer's own. */
module IdempotencyKeys {
  import opened Tables

  /** The code's own prefix says what is being paid; a withdrawal has only what its customer sent. */
  function Prefix(k: Key): string {
    match k
    case ResolveKey(_, _) => "dispute:"
    case DepositKey(_) => "deposit_credit_"
    case CashOutKey(_) => ""
    case ReversalKey(_) => "reversal_"
    case BetKey(movement, _) =>
      match movement
      case HoldA => "lobby:consentA:"
      case HoldB => "lobby:consentB:"
      case ExpiryRefund => "expire_"
      case DisputeVoidA => "dispute_void_"
      case DisputeVoidB => "dispute_void_"
      case NoShowA => "noshow-refund-a-"
      case NoShowB => "noshow-refund-b-"
      case UnderageA => "void-underage-a-"
      case UnderageB => "void-underage-b-"
      case _ => "settle_"
  }

  function Suffix(k: Key): string {
    match k
    case ResolveKey(sideA, _) => if sideA then ":refund:a" else ":refund:b"
    case BetKey(movement, _) =>
      (match movement
       case Fee => "_fee"
       case RefereeReward => "_referee"
       case DevShare => "_devshare"
       case Release => "_release"
       case ReleaseA => "_release_a"
       case ReleaseB => "_release_b"
       case DisputeVoidA => "_refund_a"
       case DisputeVoidB => "_refund_b"
       case _ => "")
    case _ => ""
  }

  function Subject(k: Key): string {
    match k
    case BetKey(_, bet) => bet.text
    case ResolveKey(_, dispute) => dispute.text
    case DepositKey(reference) => reference.text
    case CashOutKey(text) => text
    case ReversalKey(text) => text
  }

  function Text(k: Key): string {
    Prefix(k) + Subject(k) + Suffix(k)
  }

  /** What a request may bring along; the column is as wide. */
  const KEY_WIDTH := 255

  predicate IsRequestText(text: string) {
    1 <= |text| <= KEY_WIDTH
  }

  /** The text is the code's to choose. */
  predicate IsServers(k: Key) {
    !k.CashOutKey?
  }

  lemma CashOutText(text: string)
    ensures Text(CashOutKey(text)) == text
  {
  }

  /** No prefix begins another: two of them part at one of the first two letters or at a fixed later one. */
  lemma PrefixesPart(k: Key, k': Key)
    requires IsServers(k) && IsServers(k') && Prefix(k) != Prefix(k')
    ensures var p, p' := Prefix(k), Prefix(k');
            |p| > 1 && |p'| > 1 &&
            (p[0] != p'[0] || p[1] != p'[1]
             || (|p| > 7 && |p'| > 7 && p[7] != p'[7])
             || (|p| > 14 && |p'| > 14 && (p[13] != p'[13] || p[14] != p'[14])))
  {
    var p, p' := Prefix(k), Prefix(k');
    if p[0] == p'[0] == 'l' {
      assert {p, p'} == {"lobby:consentA:", "lobby:consentB:"};
    }
  }

  function FromEnd(text: string, i: nat): char
    requires i < |text|
  {
    text[|text| - 1 - i]
  }

  /** Under one prefix no suffix ends another. */
  lemma SuffixesPart(k: Key, k': Key)
    requires IsServers(k) && IsServers(k') && Prefix(k) == Prefix(k') && Suffix(k) != Suffix(k')
    ensures var q, q' := Suffix(k), Suffix(k');
            && |q| > 2 && |q'| > 2
            && (FromEnd(q, 0) != FromEnd(q', 0) || FromEnd(q, 1) != FromEnd(q', 1) || FromEnd(q, 2) != FromEnd(q', 2))
  {
  }

  lemma AffixesNameTheMovement(k: Key, k': Key)
    requires IsServers(k) && IsServers(k') && Prefix(k) == Prefix(k') && Suffix(k) == Suffix(k')
    requires Subject(k) == Subject(k')
    ensures k == k'
  {
  }

  lemma SameTextSamePrefix(k: Key, k': Key)
    requires IsServers(k) && IsServers(k') && Text(k) == Text(k')
    ensures Prefix(k) == Prefix(k')
  {
    hide Prefix, Suffix;
    var text, p, p' := Text(k), Prefix(k), Prefix(k');
    assert forall i :: 0 <= i < |p| ==> text[i] == p[i];
    assert forall i :: 0 <= i < |p'| ==> text[i] == p'[i];
    if p != p' {
      PrefixesPart(k, k');
    }
  }

  lemma SameTextSameSuffix(k: Key, k': Key)
    requires IsServers(k) && IsServers(k') && Text(k) == Text(k') && Prefix(k) == Prefix(k')
    ensures Suffix(k) == Suffix(k')
  {
    hide Prefix, Suffix;
    var text, q, q' := Text(k), Suffix(k), Suffix(k');
    assert forall i :: 0 <= i < |q| ==> FromEnd(text, i) == FromEnd(q, i);
    assert forall i :: 0 <= i < |q'| ==> FromEnd(text, i) == FromEnd(q', i);
    if q != q' {
      SuffixesPart(k, k');
    }
  }

  /**
   No two of the code's own movements share a text, deposits' credits and withdrawals'
   reversals included, for ids and customers' texts of any length and spelling.
   */
  lemma KeysNeverCollide(k: Key, k': Key)
    requires IsServers(k) && IsServers(k') && k != k'
    ensures Text(k) != Text(k')
  {
    hide Prefix, Suffix;
    if Text(k) == Text(k') {
      SameTextSamePrefix(k, k');
      SameTextSameSuffix(k, k');
      var text, p, q := Text(k), Prefix(k), Suffix(k);
      assert Subject(k) == text[|p|..|text| - |q|] == Subject(k');
      AffixesNameTheMovement(k, k');
    }
  }
}
