/** The cache budget an instance is rendered with, in 64-bit arithmetic, against the volume it has to fit. */
module Render {
  import opened Wrappers
  import Envelope
  import opened Directory
  import Quantities
  import GoCache

  newtype int64 = i: int | -0x8000_0000_0000_0000 <= i < 0x8000_0000_0000_0000

  const GiB: int64 := 0x4000_0000
  const HeaderSize: int64 := 4096
  const EntryCap: int64 := 0x1000_0000
  const Largest: int64 := 0x7fff_ffff_ffff_ffff

  /** `bytes` is the capacity as a whole number of bytes where the quantity can be read as one. */
  datatype Config = Config(maxCacheGiB: int64, capacity: Quantities.Fraction, bytes: Option<int64>) {
    ghost predicate WellFormed() {
      && capacity.den > 0
      && (bytes.Some? ==> bytes.value as int * capacity.den == capacity.num)
    }
  }

  datatype Failure = NotPositive | BudgetNotSmaller | BudgetOverflows | NotWholeBytes | NoStagingRoom

  datatype Rendered = Budgets(total: int64, entry: int64, volume: int64) | Failed(failure: Failure)

  /** The budget is a positive number of GiB below the capacity. */
  function Validate(c: Config): Option<Failure> {
    if c.maxCacheGiB <= 0 then Some(NotPositive)
    else if c.maxCacheGiB as int * GiB as int * c.capacity.den >= c.capacity.num then Some(BudgetNotSmaller)
    else None
  }

  /** No operation below leaves the range of `int64`. */
  function Budget(c: Config): (r: Rendered)
    requires c.WellFormed()
    ensures r.Budgets? ==>
      && r.total as int == c.maxCacheGiB as int * GiB as int
      && Limits(r.entry as int, r.total as int).Valid()
      && r.total as int + r.entry as int + Envelope.HeaderSize <= r.volume as int
      && c.bytes == Some(r.volume)
    ensures r == Failed(BudgetOverflows) ==> c.maxCacheGiB as int * GiB as int > Largest as int
    ensures r == Failed(NoStagingRoom) ==> c.bytes.Some? && c.bytes.value as int <= c.maxCacheGiB as int * GiB as int + Envelope.HeaderSize
  {
    var invalid := Validate(c);
    if invalid.Some? then Failed(invalid.value)
    else if c.maxCacheGiB > Largest / GiB then Failed(BudgetOverflows)
    else
      var total := c.maxCacheGiB * GiB;
      var limit := total - HeaderSize;
      var entry := if limit > EntryCap then EntryCap else limit;
      if c.bytes.None? then Failed(NotWholeBytes)
      else
        Smaller(c, total);
        var volume := c.bytes.value;
        var staging := volume - total - HeaderSize;
        if staging <= 0 then Failed(NoStagingRoom)
        else Budgets(total, if entry > staging then staging else entry, volume)
  }

  /** When there are budgets, and that a single artifact may then be as large as a quarter GiB, the budget and the room beside it
      for one upload allow, with a header of 4096 bytes each. */
  lemma LargestEntry(c: Config)
    requires c.WellFormed()
    ensures Budget(c).Budgets? <==>
      && 0 < c.maxCacheGiB as int <= 8589934591 && c.maxCacheGiB as int * 1073741824 * c.capacity.den < c.capacity.num
      && c.bytes.Some? && c.maxCacheGiB as int * 1073741824 + 4096 < c.bytes.value as int
    ensures Budget(c).Budgets? ==>
      && Budget(c).total as int == c.maxCacheGiB as int * 1073741824
      && var total, entry, volume := Budget(c).total as int, Budget(c).entry as int, c.bytes.value as int;
         && entry <= 268435456 && entry + 4096 <= total && total + entry + 4096 <= volume
         && (entry == 268435456 || entry + 4096 == total || total + entry + 4096 == volume)
  {
  }

  lemma Scaled(a: int, b: int, d: nat)
    requires a <= b
    ensures a * d <= b * d
  {
  }

  lemma Smaller(c: Config, total: int64)
    requires c.WellFormed() && c.bytes.Some? && total as int * c.capacity.den < c.capacity.num
    ensures total < c.bytes.value
  {
    if c.bytes.value <= total { Scaled(c.bytes.value as int, total as int, c.capacity.den); }
  }

  /** Every state the directory of a server with rendered budgets is ever in fits the volume, up to the one byte that is read
      past the announced length of a body. */
  lemma DiskFitsVolume(c: Config, server: GoCache.Server, i: nat)
    requires c.WellFormed() && Budget(c).Budgets?
    requires server.Valid() && server.limits == Limits(Budget(c).entry as int, Budget(c).total as int) && i < |server.log|
    ensures DiskUse(server.log[i].files) <= Budget(c).volume as int + (if server.excess then 1 else 0)
  {
    assert GoCache.Sane(server.env, server.limits, server.excess, server.log[i]);
  }
}
