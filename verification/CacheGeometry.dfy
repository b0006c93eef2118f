/** Per-shard cache geometry derived from a total memory budget. */
module CacheGeometry {
  const MIB: nat := 1048576
  const MIN_PAGE: nat := MIB
  const MAX_PAGE: nat := 1024 * MIB
  const TARGET_PAGES: nat := 16
  const MIN_PAGES: nat := 2
  const FALLBACK_BUDGET: nat := 1024 * MIB
  const BUDGET_PERCENT: nat := 25
  const MAX_INT64: nat := 0x7FFF_FFFF_FFFF_FFFF

  datatype Geometry =
    | Pages(perShard: int, pageSize: nat)
    | BadShardCount
    | BadBudget
    | BudgetTooSmall(minimum: int)
    | ExceedsPlatformInt

  predicate IsPow2(x: nat)
  {
    x == 1 || (x > 1 && x % 2 == 0 && IsPow2(x / 2))
  }

  /** `floorPow2`: the largest power of two not above `n`. */
  function FloorPow2(n: int): (r: nat)
    ensures IsPow2(r)
    ensures n >= 1 ==> r <= n < 2 * r
    ensures n < 1 ==> r == 1
  {
    if n < 2 then 1 else 2 * FloorPow2(n / 2)
  }

  function Clamp(x: int): (r: int)
  {
    if x < MIN_PAGE then MIN_PAGE else if x > MAX_PAGE then MAX_PAGE else x
  }

  /** The page size chosen for a shard's share. */
  function PageSize(perShard: int): (ps: nat)
  {
    FloorPow2(Clamp(perShard / TARGET_PAGES))
  }

  /** `cacheGeometry`; `maxInt` is the largest int of the platform. */
  function Derive(total: int, shards: int, maxInt: nat): (g: Geometry)
  {
    if shards <= 0 then BadShardCount
    else if total <= 0 then BadBudget
    else
      var perShard := total / shards;
      var ps := PageSize(perShard);
      if perShard < MIN_PAGES * ps then BudgetTooSmall(MIN_PAGES * ps * shards)
      else if perShard > maxInt then ExceedsPlatformInt
      else Pages(perShard, ps)
  }

  // ---------- powers of two ----------

  lemma {:induction false} Pow2Unique(a: nat, b: nat)
    requires IsPow2(a) && IsPow2(b) && a <= b < 2 * a
    ensures a == b
    decreases a
  {
    if a > 1 { Pow2Unique(a / 2, b / 2); }
  }

  lemma {:induction false} Pow2Above(n: int, p: nat)
    requires IsPow2(p) && n >= p
    ensures FloorPow2(n) >= p
    decreases p
  {
    if p > 1 { Pow2Above(n / 2, p / 2); }
  }

  lemma PageBounds()
    ensures IsPow2(MIN_PAGE) && IsPow2(MAX_PAGE)
  {
    Times32(1);
    Times32(32);
    Times32(1024);
    Times32(32 * 1024);
    Times32(MIB);
    Times32(32 * MIB);
  }

  lemma Times32(x: nat)
    requires IsPow2(x)
    ensures IsPow2(32 * x)
  {
    assert IsPow2(2 * x);
    assert IsPow2(4 * x);
    assert IsPow2(8 * x);
    assert IsPow2(16 * x);
  }

  /** The page size is a power of two within the cache's bounds. */
  lemma PageSizeBounds(perShard: int)
    ensures IsPow2(PageSize(perShard)) && MIN_PAGE <= PageSize(perShard) <= MAX_PAGE
    ensures perShard < 32 * MIB ==> PageSize(perShard) == MIN_PAGE
  {
    PageBounds();
    var x := Clamp(perShard / TARGET_PAGES);
    Pow2Above(x, MIN_PAGE);
    if perShard < 32 * MIB { Pow2Unique(MIN_PAGE, FloorPow2(x)); }
  }

  /** A share from 16 MiB up to 32 GiB holds 16 to 31 whole pages. */
  lemma PageCount(perShard: int)
    requires 16 * MIB <= perShard < 32 * MAX_PAGE
    ensures PageSize(perShard) > 0 && 16 <= perShard / PageSize(perShard) <= 31
  {
    PageSizeBounds(perShard);
    var x, ps := perShard / TARGET_PAGES, PageSize(perShard);
    assert 16 * ps <= perShard < 32 * ps by {
      if x > MAX_PAGE {
        PageBounds();
        Pow2Above(MAX_PAGE, MAX_PAGE);
      }
    }
    Between(perShard, ps);
  }

  lemma Between(n: int, d: int)
    requires d > 0 && 16 * d <= n < 32 * d
    ensures 16 <= n / d <= 31
  {}

  /** Only a share below two minimum pages is refused. */
  lemma ShareAccepted(perShard: int)
    ensures perShard < MIN_PAGES * PageSize(perShard) <==> perShard < 2 * MIB
    ensures perShard < 2 * MIB ==> PageSize(perShard) == MIN_PAGE
  {
    PageSizeBounds(perShard);
  }

  lemma Share(total: int, shards: int)
    requires total > 0 && shards > 0
    ensures 0 <= total / shards <= total && shards * (total / shards) <= total < shards * (total / shards + 1)
    ensures total / shards >= 2 * MIB <==> total >= 2 * MIB * shards
  {
    var q := total / shards;
    DivMod(total, shards);
    if q < 0 {
      Scale(q + 1, 0, shards);
    } else if q >= 2 * MIB {
      Scale(2 * MIB, q, shards);
    } else {
      Scale(q + 1, 2 * MIB, shards);
    }
    if q > 0 { Scale(1, shards, q); }
  }

  lemma DivMod(n: int, d: int)
    requires d > 0
    ensures n == n / d * d + n % d && 0 <= n % d < d
  {}

  lemma Scale(a: int, b: int, c: int)
    requires a <= b && c > 0
    ensures a * c <= b * c
  {}

  /** On a 64-bit platform a positive budget over a positive number of shards is
      accepted exactly when it is at least 2 MiB per shard, the minimum the refusal
      names; what is derived uses the budget up to less than a byte per shard, within the
      page bounds. */
  lemma DeriveIff(total: int, shards: int)
    requires 0 < total <= MAX_INT64 && shards > 0
    ensures var g := Derive(total, shards, MAX_INT64);
      && (g.Pages? <==> total >= 2 * MIB * shards)
      && (g.Pages? ==> IsPow2(g.pageSize) && MIN_PAGE <= g.pageSize <= MAX_PAGE && shards * g.perShard <= total < shards * (g.perShard + 1)
                       && 2 * g.pageSize <= g.perShard
                       && (16 * MIB <= g.perShard < 32 * MAX_PAGE ==> 16 <= g.perShard / g.pageSize <= 31))
      && (!g.Pages? ==> g == BudgetTooSmall(2 * MIB * shards))
  {
    Share(total, shards);
    var perShard := total / shards;
    ShareAccepted(perShard);
    PageSizeBounds(perShard);
    if 16 * MIB <= perShard < 32 * MAX_PAGE { PageCount(perShard); }
  }

  // ---------- the configuration ----------

  function Wrap64(x: int): (r: int)
  {
    var m := x % (2 * (MAX_INT64 + 1));
    if m > MAX_INT64 then m - 2 * (MAX_INT64 + 1) else m
  }

  function Truncated(x: int, d: nat): (r: int)
    requires d > 0
  {
    if x >= 0 then x / d else -((-x) / d)
  }

  /** `defaultCacheBudget` from the detected memory, zero or less when unknown. */
  function DefaultBudget(memory: int): (b: int)
    ensures memory <= 0 ==> b == FALLBACK_BUDGET
    ensures 0 < memory <= MAX_INT64 / BUDGET_PERCENT ==> 4 * b <= memory < 4 * (b + 1)
  {
    if memory <= 0 then FALLBACK_BUDGET else Truncated(Wrap64(memory * BUDGET_PERCENT), 100)
  }

  class Config {
    var maxMemoryPerShard: int
    var pageSize: int

    /** `applyCacheBudget`: the derived geometry, or nothing changed. */
    method ApplyBudget(budget: int, shards: int, memory: int) returns (g: Geometry)
      modifies this
      ensures g == Derive(if budget <= 0 then DefaultBudget(memory) else budget, shards, MAX_INT64)
      ensures g.Pages? ==> maxMemoryPerShard == g.perShard && pageSize == g.pageSize
      ensures !g.Pages? ==> unchanged(this)
      ensures g.Pages? && 0 < budget <= MAX_INT64 ==> shards * maxMemoryPerShard <= budget < shards * (maxMemoryPerShard + 1)
    {
      var total := budget;
      if total <= 0 { total := DefaultBudget(memory); }
      g := Derive(total, shards, MAX_INT64);
      if !g.Pages? { return; }
      if total <= MAX_INT64 { DeriveIff(total, shards); }
      maxMemoryPerShard := g.perShard;
      pageSize := g.pageSize;
    }
  }
}
