/** Size classes, page layout and direct-mapping layout: where headers, payloads
    and redzones lie inside their mapping (src/adaptive_services.cpp). */
module Geometry {
  import opened Arith
  import opened Types
  import opened Options
  import opened Policy

  lemma AlignUpFacts(v: nat, a: nat)
    requires a > 0
    ensures v <= AlignUp(v, a) < v + a
    ensures AlignUp(v, a) % a == 0
  {
    DivFacts(v + a - 1, a);
    Quotient(AlignUp(v, a), a, (v + a - 1) / a, 0);
  }

  // ---- Size classes ---------------------------------------------------------

  function SmallClass(size: nat): Option<Class> {
    var rounded := if size == 0 then 1 else size;
    if rounded > SMALL_MAX then None
    else
      var up := AlignUp(rounded, 16);
      if up == 0 || up > SMALL_MAX then None else Some(Class(SizeClass, up / 16 - 1))
  }

  function MediumClass(size: nat): Option<Class> {
    var rounded := if size == 0 then 1 else size;
    if rounded > MEDIUM_MAX then None
    else
      var raised := if rounded <= SMALL_MAX then SMALL_MAX + 1 else rounded;
      var up := AlignUp(raised, 1024);
      if up <= SMALL_MAX || up > MEDIUM_MAX then None
      else
        var index := (up - SMALL_MAX) / 1024 - 1;
        if index < MEDIUM_CLASSES then Some(Class(Span, index)) else None
  }

  /** The class a pooled request is served from. */
  function ClassFor(storage: Storage, size: nat): Option<Class> {
    match storage
    case SizeClass => SmallClass(size)
    case Span => MediumClass(size)
    case DirectMap => None
  }

  /** The class holds the request, and the class below it does not. */
  predicate Tightest(c: Class, size: nat) {
    && ValidClass(c) && ClassUsable(c) >= size && ClassUsable(c) % 16 == 0
    && (c.index > 0 ==> ClassUsable(c.(index := c.index - 1)) < size)
  }

  lemma SmallTightest(size: nat)
    requires size <= SMALL_MAX
    ensures SmallClass(size).Some? && Tightest(SmallClass(size).value, size)
  {
  }

  lemma MediumTightest(size: nat)
    requires SMALL_MAX < size <= MEDIUM_MAX
    ensures MediumClass(size).Some? && Tightest(MediumClass(size).value, size)
  {
  }

  /** Every request that routing sends to a pool has a class there, the tightest one. */
  lemma RoutedClassIsTightest(mode: Mode, size: nat, alignment: nat, t: Tid, viaRealloc: bool)
    ensures var storage := Route(mode, size, alignment, t, viaRealloc);
            var c := ClassFor(storage, size);
            && (c.Some? <==> !storage.DirectMap?)
            && (c.Some? ==> c.value.storage == storage && Tightest(c.value, size))
  {
    hide Tightest, AlignUp, Route;
    RouteIsDecidedBySize(mode, size, alignment, t, viaRealloc);
    if size <= SMALL_MAX {
      SmallTightest(size);
    } else if size <= MEDIUM_MAX {
      MediumTightest(size);
    }
  }

  // ---- Pool pages -----------------------------------------------------------

  function Capacity(bytes: nat, c: Class): nat {
    if FIRST_BLOCK >= bytes then 0
    else
      DivFacts(bytes - FIRST_BLOCK, Stride(c));
      (bytes - FIRST_BLOCK) / Stride(c)
  }

  /** Header addresses of the blocks of a page, in address order. */
  function Layout(base: Addr, stride: nat, capacity: nat): seq<Addr> {
    seq(capacity, (i: nat) => base + FIRST_BLOCK + i * stride)
  }

  lemma StrideMonotone(i: nat, j: nat, stride: nat)
    requires i < j
    ensures i * stride + stride <= j * stride
  {
    MulLe(i + 1, j, stride);
    assert (i + 1) * stride == i * stride + stride;
  }

  /** Blocks follow each other without overlap, the first one after the page
      structure, the last one ending inside the mapping. */
  lemma LayoutFacts(base: Addr, c: Class, bytes: nat)
    requires ValidClass(c)
    ensures var blocks := Layout(base, Stride(c), Capacity(bytes, c));
            && |blocks| == Capacity(bytes, c)
            && (forall i :: 0 <= i < |blocks| ==>
                  base + FIRST_BLOCK <= blocks[i] && blocks[i] + Stride(c) <= base + bytes)
            && (forall i, j :: 0 <= i < j < |blocks| ==> blocks[i] + Stride(c) <= blocks[j])
  {
    var blocks := Layout(base, Stride(c), Capacity(bytes, c));
    forall i | 0 <= i < |blocks|
      ensures base + FIRST_BLOCK <= blocks[i] && blocks[i] + Stride(c) <= base + bytes
    {
      DivFacts(bytes - FIRST_BLOCK, Stride(c));
      MulLe(0, i, Stride(c));
      StrideMonotone(i, |blocks|, Stride(c));
    }
    forall i, j | 0 <= i < j < |blocks| ensures blocks[i] + Stride(c) <= blocks[j] {
      StrideMonotone(i, j, Stride(c));
    }
  }

  /** No more blocks would fit. */
  lemma CapacityIsLargest(bytes: nat, c: Class)
    requires ValidClass(c) && FIRST_BLOCK < bytes
    ensures FIRST_BLOCK + Capacity(bytes, c) * Stride(c) <= bytes < FIRST_BLOCK + (Capacity(bytes, c) + 1) * Stride(c)
  {
    var n, d := Capacity(bytes, c), Stride(c);
    DivFacts(bytes - FIRST_BLOCK, d);
    assert (n + 1) * d == n * d + d;
  }

  /** On a page-aligned mapping every block's user pointer is 16-byte aligned. */
  lemma BlocksAligned(base: Addr, c: Class, bytes: nat, i: nat)
    requires ValidClass(c) && base % PAGE_SIZE == 0 && i < Capacity(bytes, c)
    ensures (Layout(base, Stride(c), Capacity(bytes, c))[i] + HEADER) % 16 == 0
  {
    hide Capacity;
    var units := if c.storage.SizeClass? then c.index + 8 else 71 + (c.index + 1) * 64;
    var a := Layout(base, Stride(c), Capacity(bytes, c))[i] + HEADER;
    assert Stride(c) == 16 * units;
    Sixteenths(i, units, base);
    assert a == base + FIRST_BLOCK + i * Stride(c) + HEADER;
  }

  lemma Sixteenths(i: nat, units: nat, base: Addr)
    requires base % PAGE_SIZE == 0
    ensures (base + FIRST_BLOCK + i * (16 * units) + HEADER) % 16 == 0
  {
    var k, m := base / PAGE_SIZE * 256, i * units;
    assert base == 16 * k;
    assert i * (16 * units) == 16 * m;
    Quotient(16 * (k + m + 11), 16, k + m + 11, 0);
    assert base + FIRST_BLOCK + i * (16 * units) + HEADER == 16 * (k + m + 11);
  }

  /** `create_pool_page` refuses exactly one configuration: the largest medium class
      in a 64 KiB span, where not even one block fits. */
  lemma OnlyLargestClassCanStarve(cfg: Config, c: Class)
    requires ValidConfig(cfg) && ValidClass(c)
    ensures Capacity(PageBytes(cfg, c), c) == 0 <==>
            c == Class(Span, MEDIUM_CLASSES - 1) && cfg.spanSize == 65536
    ensures Capacity(PageBytes(cfg, c), c) <= 0xFFFF_FFFF
  {
  }

  // ---- Direct mappings ------------------------------------------------------

  function DirectUsable(size: nat): nat {
    AlignUp(if size == 0 then 1 else size, 16)
  }

  /** The mapping size computed by `allocate_direct_map`, guard by guard; `None`
      where one of its overflow tests rejects the request. */
  function DirectBytes(size: nat, alignment: nat, redzone: bool): Option<nat> {
    var want := if size == 0 then 1 else size;
    if want > WORD - 1 - 15 then None
    else
      var usable := AlignUp(want, 16);
      var rz := if redzone then REDZONE else 0;
      var slack := if alignment > 16 then alignment else 0;
      if usable > WORD - 1 - HEADER then None
      else if rz > WORD - 1 - (HEADER + usable) then None
      else if slack > WORD - 1 - (HEADER + usable + rz) then None
      else
        var total := HEADER + usable + rz + slack;
        if total > WORD - 1 - (PAGE_SIZE - 1) then None
        else Some(AlignUp(total, PAGE_SIZE))
  }

  /** Header address chosen inside a mapping at `base`. */
  function DirectHeader(base: Addr, alignment: nat): Addr {
    if alignment > 16 then
      AlignUpFacts(base + HEADER, alignment);
      AlignUp(base + HEADER, alignment) - HEADER
    else base
  }

  /** The chain of guards rejects exactly the requests whose rounded total does not
      fit in a 64-bit word; no intermediate sum wraps on the way. */
  lemma DirectBytesExact(size: nat, alignment: nat, redzone: bool)
    requires size < WORD && alignment < WORD
    ensures var total := HEADER + DirectUsable(size) + (if redzone then REDZONE else 0)
                         + (if alignment > 16 then alignment else 0);
            var r := DirectBytes(size, alignment, redzone);
            && (r.Some? <==> total + PAGE_SIZE - 1 < WORD)
            && (r.Some? ==> total <= r.value < total + PAGE_SIZE && r.value % PAGE_SIZE == 0)
  {
  }

  /** Inside any page-aligned mapping of that size, header, payload and redzone fit,
      the user pointer has the requested alignment (at least 16), and the address
      arithmetic does not wrap. */
  lemma DirectFits(base: Addr, size: nat, alignment: nat, redzone: bool)
    requires size < WORD && alignment < WORD
    requires DirectBytes(size, alignment, redzone).Some?
    requires base % PAGE_SIZE == 0
    requires base + DirectBytes(size, alignment, redzone).value <= WORD
    ensures var h := DirectHeader(base, alignment);
            var bytes := DirectBytes(size, alignment, redzone).value;
            && base <= h
            && h + HEADER + DirectUsable(size) + (if redzone then REDZONE else 0) <= base + bytes
            && DirectUsable(size) >= size && DirectUsable(size) > 0
            && (h + HEADER) % (if alignment > 16 then alignment else 16) == 0
            && base + HEADER + (if alignment > 16 then alignment - 1 else 0) < WORD
  {
    DirectBytesExact(size, alignment, redzone);
    AlignUpFacts(if size == 0 then 1 else size, 16);
    if alignment > 16 {
      AlignUpFacts(base + HEADER, alignment);
    }
  }
}
