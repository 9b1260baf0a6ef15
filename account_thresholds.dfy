/**
 * The account-thresholds adapter of services/horizon/internal/resourceadapter:
 * it copies the low, medium and high thresholds of an account row from the
 * core database into the response's AccountThresholds. The row's thresholds
 * are a four-byte array; byte 0 is the master key's weight and is not part of
 * the response.
 */
module ResourceAdapter {
  newtype byte = x: int | 0 <= x < 256

  /** A four-byte threshold array: master weight, low, medium, high. */
  type Thresholds = t: seq<byte> | |t| == 4 witness [0, 0, 0, 0]

  /** The fields of a core account row the adapter can see; the row is passed by value. */
  datatype Account = Account(accountID: string, balance: int, thresholds: Thresholds)

  /** The three thresholds an AccountThresholds holds. */
  datatype Levels = Levels(low: byte, med: byte, high: byte)

  /** What the response holds once populated from `row`. */
  function Populated(row: Account): (r: Levels)
    ensures [row.thresholds[0], r.low, r.med, r.high] == row.thresholds
  {
    Levels(row.thresholds[1], row.thresholds[2], row.thresholds[3])
  }

  /** The response struct of the horizon protocol package, which the adapter fills in place. */
  class AccountThresholds {
    var lowThreshold: byte
    var medThreshold: byte
    var highThreshold: byte

    function View(): Levels
      reads this
    {
      Levels(lowThreshold, medThreshold, highThreshold)
    }

    constructor ()
      ensures View() == Levels(0, 0, 0)
    {
      lowThreshold, medThreshold, highThreshold := 0, 0, 0;
    }
  }

  /** PopulateAccountThresholds (account_thresholds.go:8-12): the three fields of dest, from bytes 1 to 3. */
  method PopulateAccountThresholds(dest: AccountThresholds, row: Account)
    modifies dest
    ensures dest.View() == Populated(row)
  {
    dest.lowThreshold := row.thresholds[1];
    dest.medThreshold := row.thresholds[2];
    dest.highThreshold := row.thresholds[3];
  }

  /** The master weight (byte 0) and every other field of the row leave the response unchanged. */
  lemma PopulatedIgnoresMasterWeight(a: Account, b: Account)
    requires a.thresholds[1..] == b.thresholds[1..]
    ensures Populated(a) == Populated(b)
  {
    assert a.thresholds[1] == a.thresholds[1..][0] == b.thresholds[1..][0] == b.thresholds[1];
    assert a.thresholds[2] == a.thresholds[1..][1] == b.thresholds[1..][1] == b.thresholds[2];
    assert a.thresholds[3] == a.thresholds[1..][2] == b.thresholds[1..][2] == b.thresholds[3];
  }

  /** Two rows give the same response exactly when their thresholds agree past the master weight. */
  lemma PopulatedInjective(a: Account, b: Account)
    ensures Populated(a) == Populated(b) <==> a.thresholds[1..] == b.thresholds[1..]
  {
    if Populated(a) == Populated(b) {
      assert a.thresholds[1..] == [Populated(a).low, Populated(a).med, Populated(a).high];
      assert b.thresholds[1..] == [Populated(b).low, Populated(b).med, Populated(b).high];
    } else if a.thresholds[1..] == b.thresholds[1..] {
      PopulatedIgnoresMasterWeight(a, b);
    }
  }

  /**
   * Populating twice from the same row leaves dest as populating once, and
   * the row, a value, is unchanged.
   */
  method PopulateTwice(dest: AccountThresholds, row: Account)
    modifies dest
    ensures dest.View() == Populated(row)
  {
    PopulateAccountThresholds(dest, row);
    ghost var once := dest.View();
    PopulateAccountThresholds(dest, row);
    assert dest.View() == once;
  }
}
