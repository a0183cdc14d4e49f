/**
 * The two wrapping counters of the device client: the 16-bit MQTT packet identifier
 * and the 32-bit identifier of a twin report.  Both skip zero and the all-ones value.
 */
module PacketIds {

  const USHRT_MAX: nat := 65535
  const UINT32_MAX: nat := 4294967295

  /** `issued` counts the identifiers handed out so far; the program stores only `current`. */
  datatype Counter = Counter(current: nat, issued: nat)

  const FIRST_COUNTER := Counter(1, 0)

  /** The step both counters take: skip the all-ones value and zero. */
  function Advance(current: nat, max: nat): (next: nat)
    ensures 0 < current + 1 < max ==> 0 < next < max
  {
    if current + 1 >= max then 1 else current + 1
  }

  /** get_next_packet_id */
  function Next(c: Counter): (n: Counter)
  {
    Counter(Advance(c.current, USHRT_MAX), c.issued + 1)
  }

  /** The identifier that the `serial`-th allocation returns, as a closed form. */
  function IdOf(serial: nat): (id: nat)
    ensures 1 <= id <= 65534
  {
    serial % 65534 + 1
  }

  /** The id that the `n`-th draw for a twin report returns, as a closed form. */
  function ItemIdOf(n: nat): (id: nat)
    ensures 1 <= id <= 4294967294
  {
    n % 4294967294 + 1
  }

  /** get_next_item_id follows the closed form. */
  lemma NextItem(n: nat)
    ensures Advance(ItemIdOf(n), UINT32_MAX) == ItemIdOf(n + 1)
  {
    if n % 4294967294 == 4294967293 {
      assert (n + 1) % 4294967294 == 0;
    } else {
      assert (n + 1) % 4294967294 == n % 4294967294 + 1;
    }
  }

  /** Any 4294967294 consecutive draws give distinct ids. */
  lemma ItemsDistinct(a: nat, b: nat)
    requires a < b && b - a < 4294967294
    ensures ItemIdOf(a) != ItemIdOf(b)
  {
    var quotients := b / 4294967294 - a / 4294967294;
    assert b - a == 4294967294 * quotients + (b % 4294967294 - a % 4294967294);
  }

  ghost predicate Consistent(c: Counter)
  {
    c.current == IdOf(c.issued)
  }

  lemma NextConsistent(c: Counter)
    requires Consistent(c)
    ensures Consistent(Next(c))
    ensures Next(c).issued == c.issued + 1
  {
    if c.issued % 65534 == 65533 {
      assert (c.issued + 1) % 65534 == 0;
    } else {
      assert (c.issued + 1) % 65534 == c.issued % 65534 + 1;
    }
  }

  /** Any 65534 consecutive packet identifiers are pairwise distinct, and the window cannot be widened. */
  lemma WindowDistinct(a: nat, b: nat)
    requires a < b
    ensures b - a < 65534 ==> IdOf(a) != IdOf(b)
    ensures b - a == 65534 ==> IdOf(a) == IdOf(b)
  {
    var quotients := b / 65534 - a / 65534;
    assert b - a == 65534 * quotients + (b % 65534 - a % 65534);
  }
}
