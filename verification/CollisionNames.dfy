/** The three suffix-counting loops that look for an unused name:
    `_resolve_conflict_safe_path`, `_unique_mobile_folder_name` and `_resolve_output_path`.
    The names in use are a finite set of full paths. */
module CollisionNames {

  function Digit(d: nat): char
    requires d < 10
  {
    "0123456789"[d]
  }

  /** The decimal rendering of a counter, as an f-string prints it. */
  function Decimal(n: nat): (s: string)
    ensures s != ""
  {
    if n < 10 then [Digit(n)] else Decimal(n / 10) + [Digit(n % 10)]
  }

  /** A numbered candidate: prefix, dash, counter, suffix. */
  function Numbered(prefix: string, k: nat, suffix: string): string {
    prefix + "-" + Decimal(k) + suffix
  }

  ghost predicate AllTaken(used: set<string>, prefix: string, suffix: string, from: nat, end: nat) {
    forall j: nat :: from <= j < end ==> Numbered(prefix, j, suffix) in used
  }

  /** `k` is the first counter from `from` on whose numbered name is unused. */
  ghost predicate IsFirstFree(used: set<string>, prefix: string, suffix: string, from: nat, k: nat) {
    from <= k && Numbered(prefix, k, suffix) !in used && AllTaken(used, prefix, suffix, from, k)
  }

  lemma {:induction false} DecimalInjective(m: nat, n: nat)
    requires Decimal(m) == Decimal(n)
    ensures m == n
    decreases m + n
  {
    var s, t := Decimal(m), Decimal(n);
    assert s[|s| - 1] == Digit(m % 10) && t[|t| - 1] == Digit(n % 10);
    assert s[..|s| - 1] == t[..|t| - 1];
    if m >= 10 {
      assert s[..|s| - 1] == Decimal(m / 10);
    }
    if n >= 10 {
      assert t[..|t| - 1] == Decimal(n / 10);
    }
    if m >= 10 && n >= 10 {
      DecimalInjective(m / 10, n / 10);
    }
  }

  /** Two different counters never give the same name. */
  lemma NumberedInjective(prefix: string, suffix: string, m: nat, n: nat)
    requires Numbered(prefix, m, suffix) == Numbered(prefix, n, suffix)
    ensures m == n
  {
    var x, y := Numbered(prefix, m, suffix), Numbered(prefix, n, suffix);
    var at := |prefix| + 1;
    assert x[at..|x| - |suffix|] == Decimal(m);
    assert y[at..|y| - |suffix|] == Decimal(n);
    DecimalInjective(m, n);
  }

  /** Pigeonhole: a run of taken counters is no longer than the set of names in use. */
  lemma {:induction false} TakenRunIsShort(used: set<string>, prefix: string, suffix: string, from: nat, end: nat)
    requires from <= end
    requires AllTaken(used, prefix, suffix, from, end)
    ensures end - from <= |used|
    decreases end
  {
    if from < end {
      var last := Numbered(prefix, end - 1, suffix);
      forall j: nat | from <= j < end - 1
        ensures Numbered(prefix, j, suffix) in used - {last}
      {
        if Numbered(prefix, j, suffix) == last {
          NumberedInjective(prefix, suffix, j, end - 1);
        }
      }
      TakenRunIsShort(used - {last}, prefix, suffix, from, end - 1);
    }
  }

  /** The counter the loops stop at. */
  function FirstFree(used: set<string>, prefix: string, suffix: string, from: nat): (k: nat)
    ensures IsFirstFree(used, prefix, suffix, from, k)
    ensures k - from <= |used|
    decreases |used|
  {
    if Numbered(prefix, from, suffix) !in used then from
    else
      var rest := used - {Numbered(prefix, from, suffix)};
      var k := FirstFree(rest, prefix, suffix, from + 1);
      assert IsFirstFree(used, prefix, suffix, from, k) by {
        if Numbered(prefix, k, suffix) == Numbered(prefix, from, suffix) {
          NumberedInjective(prefix, suffix, k, from);
        }
        assert forall j: nat :: from + 1 <= j < k ==> Numbered(prefix, j, suffix) in rest;
      }
      k
  }

  lemma FirstFreeUnique(used: set<string>, prefix: string, suffix: string, from: nat, k: nat)
    requires IsFirstFree(used, prefix, suffix, from, k)
    ensures k == FirstFree(used, prefix, suffix, from)
  {
    var m := FirstFree(used, prefix, suffix, from);
    assert Numbered(prefix, m, suffix) !in used;
  }

  /** The `while True` loop itself. It has no exit but success, so its termination is the pigeonhole. */
  method FindFreeNumber(used: set<string>, prefix: string, suffix: string) returns (k: nat, tries: nat)
    ensures IsFirstFree(used, prefix, suffix, 2, k)
    ensures tries == k - 1 && tries <= |used| + 1
  {
    k := 2;
    tries := 1;
    while Numbered(prefix, k, suffix) in used
      invariant 2 <= k && tries == k - 1
      invariant AllTaken(used, prefix, suffix, 2, k)
      decreases |used| + 2 - k
    {
      assert AllTaken(used, prefix, suffix, 2, k + 1);
      TakenRunIsShort(used, prefix, suffix, 2, k + 1);
      k := k + 1;
      tries := tries + 1;
    }
    TakenRunIsShort(used, prefix, suffix, 2, k);
  }

  // ----- splitting a file name -----

  /** Position of the last dot, or -1. */
  function LastDot(name: string): (i: int)
    ensures -1 <= i < |name|
    ensures i >= 0 ==> name[i] == '.'
    ensures forall j :: i < j < |name| ==> name[j] != '.'
  {
    if name == "" then -1
    else if name[|name| - 1] == '.' then |name| - 1
    else LastDot(name[..|name| - 1])
  }

  /** Where `pathlib` cuts a name into stem and suffix. */
  function SuffixStart(name: string): (i: nat)
    ensures i <= |name|
  {
    if 0 < LastDot(name) < |name| - 1 then LastDot(name) else |name|
  }

  function Stem(name: string): string { name[..SuffixStart(name)] }

  function Suffix(name: string): string { name[SuffixStart(name)..] }

  /** The last dot splits a name, unless it starts or ends it. */
  ghost predicate SplitsAt(name: string, i: nat) {
    0 < i < |name| - 1 && name[i] == '.' && forall j :: i < j < |name| ==> name[j] != '.'
  }

  /** An extension is what follows the last dot, with the dot; a name that has none is all stem. */
  lemma SuffixIsExtension(name: string)
    ensures Stem(name) + Suffix(name) == name
    ensures forall i: nat :: SplitsAt(name, i) ==> Stem(name) == name[..i] && Suffix(name) == name[i..]
    ensures (forall i: nat :: !SplitsAt(name, i)) ==> Stem(name) == name && Suffix(name) == ""
  {
    if 0 < LastDot(name) < |name| - 1 {
      assert SplitsAt(name, LastDot(name));
    }
    forall i: nat | SplitsAt(name, i)
      ensures LastDot(name) == i
    {
    }
  }

  /** A taken photo.jpg becomes photo-2.jpg: the number goes between stem and extension. */
  lemma NumberBeforeExtension(used: set<string>, directory: string, stem: string, extension: string)
    requires stem != "" && extension != "" && '.' !in extension
    ensures var path := ConflictSafePath(used, directory, stem + "." + extension);
            || path == directory + "/" + stem + "." + extension
            || exists k: nat :: k >= 2 && path == directory + "/" + stem + "-" + Decimal(k) + "." + extension
  {
    var name := stem + "." + extension;
    assert SplitsAt(name, |stem|) && name[..|stem|] == stem && name[|stem|..] == "." + extension;
    SuffixIsExtension(name);
    var path := ConflictSafePath(used, directory, name);
    if directory + "/" + name !in used {
      assert path == directory + "/" + stem + "." + extension;
    } else {
      var k := FirstFree(used, directory + "/" + stem, "." + extension, 2);
      assert path == directory + "/" + stem + "-" + Decimal(k) + "." + extension;
    }
  }

  /** The path chosen for an incoming file: the name itself when free, else the first free numbered name. */
  function ConflictSafePath(used: set<string>, directory: string, filename: string): string {
    var plain := directory + "/" + filename;
    if plain !in used then plain
    else
      var prefix := directory + "/" + Stem(filename);
      Numbered(prefix, FirstFree(used, prefix, Suffix(filename), 2), Suffix(filename))
  }

  /** The chosen path is unused and lies in the directory; its last component keeps stem and suffix
      of the name asked for, and it is exactly that name if and only if that name was free. */
  lemma ConflictSafePathIsFree(used: set<string>, directory: string, filename: string)
    ensures ConflictSafePath(used, directory, filename) !in used
    ensures directory + "/" + Stem(filename) <= ConflictSafePath(used, directory, filename)
    ensures ConflictSafePath(used, directory, filename) == directory + "/" + filename
       <==> directory + "/" + filename !in used
  {
    var path := ConflictSafePath(used, directory, filename);
    var head := directory + "/" + Stem(filename);
    assert Stem(filename) + Suffix(filename) == filename;
    if directory + "/" + filename !in used {
      assert path == head + Suffix(filename);
    } else {
      var k := FirstFree(used, head, Suffix(filename), 2);
      assert path == head + ("-" + Decimal(k) + Suffix(filename));
    }
  }

  /** `_resolve_conflict_safe_path` of the transfer service and, with the downloads directory, the
      same loop in `_resolve_output_path` of the delivery service. */
  method ResolveConflictSafePath(used: set<string>, directory: string, filename: string) returns (path: string)
    ensures path == ConflictSafePath(used, directory, filename)
  {
    path := directory + "/" + filename;
    if path !in used {
      return;
    }
    var prefix := directory + "/" + Stem(filename);
    var k, _ := FindFreeNumber(used, prefix, Suffix(filename));
    FirstFreeUnique(used, prefix, Suffix(filename), 2, k);
    path := Numbered(prefix, k, Suffix(filename));
  }

  // ----- the mobile folder name -----

  function Take(s: string, n: nat): string {
    if |s| <= n then s else s[..n]
  }

  /** The folder path chosen for a device: base name, base name with the first eight characters of the
      device id, then numbered. */
  function UniqueFolderPath(used: set<string>, root: string, base: string, device: string): string {
    var first := root + "/" + base;
    var second := first + "-" + Take(device, 8);
    if first !in used then first
    else if second !in used then second
    else Numbered(second, FirstFree(used, second, "", 2), "")
  }

  lemma UniqueFolderPathIsFree(used: set<string>, root: string, base: string, device: string)
    ensures UniqueFolderPath(used, root, base, device) !in used
    ensures root + "/" + base <= UniqueFolderPath(used, root, base, device)
  {
    var first := root + "/" + base;
    var second := first + "-" + Take(device, 8);
    if first in used && second in used {
      var k := FirstFree(used, second, "", 2);
      assert Numbered(second, k, "") == first + ("-" + Take(device, 8) + "-" + Decimal(k));
    } else {
      assert second == first + ("-" + Take(device, 8));
    }
  }

  /** A folder is named after the device alone if that name is free, else also after its id, else also numbered. */
  lemma UniqueFolderPathIs(used: set<string>, root: string, base: string, device: string)
    ensures var path := UniqueFolderPath(used, root, base, device); var plain := root + "/" + base;
            var id := if |device| <= 8 then device else device[..8];
            && (path == plain <==> plain !in used)
            && (plain in used && plain + "-" + id !in used ==> path == plain + "-" + id)
            && (plain in used && plain + "-" + id in used ==>
                  exists k: nat :: IsFirstFree(used, plain + "-" + id, "", 2, k) && path == plain + "-" + id + "-" + Decimal(k))
  {
    var plain := root + "/" + base;
    var second := plain + "-" + Take(device, 8);
    if plain in used && second in used {
      var k := FirstFree(used, second, "", 2);
      assert Numbered(second, k, "") == second + "-" + Decimal(k);
    }
  }

  method FindUniqueFolderPath(used: set<string>, root: string, base: string, device: string) returns (path: string)
    ensures path == UniqueFolderPath(used, root, base, device)
  {
    path := root + "/" + base;
    if path !in used {
      return;
    }
    path := root + "/" + base + "-" + Take(device, 8);
    if path !in used {
      return;
    }
    var k, _ := FindFreeNumber(used, path, "");
    FirstFreeUnique(used, path, "", 2, k);
    path := Numbered(path, k, "");
  }
}
