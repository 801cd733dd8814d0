/**
 * The text of a usage hologram: a fixed header, a fixed "Usage:" label, one
 * line per usable usage string and a fixed click hint, in that order.
 */
module UsageLines {
  import opened Wrappers

  /** The formatting marker of Minecraft chat: a colour or style code is this
      character followed by one code character (ChatColor.COLOR_CHAR). */
  const ColourChar: char := '§'

  const DarkRed: string := [ColourChar, '4']
  const Bold: string := [ColourChar, 'l']
  const Gold: string := [ColourChar, '6']
  const Gray: string := [ColourChar, '7']
  const Yellow: string := [ColourChar, 'e']
  const White: string := [ColourChar, 'f']

  const Header: string := DarkRed + Bold + "Invalid command"
  const UsageLabel: string := Gold + "Usage:"
  const ClickHint: string := Yellow + "Right-click to get a command prompt"

  /** The header, the label and the hint: the lines shown whatever the usages are. */
  const FixedLineCount: nat := 3

  /** An entry of the usages array that yields a line: not null and not empty. */
  predicate Usable(entry: Option<string>)
  {
    entry.Some? && entry.value != []
  }

  /** The colour rule for one usage: text that already starts with a colour
      code is kept verbatim, any other text is prefixed with gray. */
  function Colourise(u: string): (line: string)
    ensures |line| > 0 && line[0] == ColourChar
    ensures |u| <= |line| && line[|line| - |u|..] == u
  {
    if |u| > 0 && u[0] == ColourChar then u else Gray + u
  }

  /** The usable entries, in their original order. */
  function Kept(entries: seq<Option<string>>): (kept: seq<string>)
    ensures |kept| <= |entries|
    ensures forall k :: 0 <= k < |kept| ==> kept[k] != []
  {
    if entries == [] then []
    else
      var last := entries[|entries| - 1];
      Kept(entries[..|entries| - 1]) + (if Usable(last) then [last.value] else [])
  }

  /** Positions of the usable entries. */
  ghost function UsableIndices(entries: seq<Option<string>>): set<nat>
  {
    set i: nat | i < |entries| && Usable(entries[i])
  }

  /** The number of usage lines a (possibly null) usages array contributes. */
  ghost function UsableCount(usages: Option<seq<Option<string>>>): nat
  {
    if usages.None? then 0 else |UsableIndices(usages.value)|
  }

  /** The colour rule applied to each kept usage. */
  function ColourAll(kept: seq<string>): (lines: seq<string>)
    ensures |lines| == |kept|
  {
    seq(|kept|, k requires 0 <= k < |kept| => Colourise(kept[k]))
  }

  /** The lines a usage hologram shows for a possibly null array of possibly null usages. */
  function ComposedLines(usages: Option<seq<Option<string>>>): seq<string>
  {
    [Header, UsageLabel] + (if usages.Some? then ColourAll(Kept(usages.value)) else []) + [ClickHint]
  }

  /** The composition loop of getUsageHologram: appends the header and the
      label, then each usable usage after the colour rule, then the hint. */
  method ComposeLines(usages: Option<seq<Option<string>>>) returns (lines: seq<string>)
    ensures lines == ComposedLines(usages)
  {
    lines := [Header, UsageLabel];
    if usages.Some? {
      var entries := usages.value;
      for i := 0 to |entries|
        invariant lines == [Header, UsageLabel] + ColourAll(Kept(entries[..i]))
      {
        var u := entries[i];
        assert entries[..i + 1][..i] == entries[..i];
        if u.Some? && u.value != [] {
          ColourAllSnoc(Kept(entries[..i]), u.value);
          lines := lines + [Colourise(u.value)];
        }
      }
      assert entries[..|entries|] == entries;
    }
    lines := lines + [ClickHint];
  }

  lemma ColourAllSnoc(kept: seq<string>, u: string)
    ensures ColourAll(kept + [u]) == ColourAll(kept) + [Colourise(u)]
  {
    assert forall k :: 0 <= k < |kept| ==> (kept + [u])[k] == kept[k];
  }

  /** A usage keeps its own colour exactly when it starts with a colour code;
      otherwise it becomes gray followed by the usage itself. */
  lemma ColouriseVerbatim(u: string)
    ensures Colourise(u) == u <==> (|u| > 0 && u[0] == ColourChar)
    ensures !(|u| > 0 && u[0] == ColourChar) ==> Colourise(u) == Gray + u
  {
  }

  /** Applying the colour rule twice is the same as applying it once. */
  lemma ColouriseIdempotent(u: string)
    ensures Colourise(Colourise(u)) == Colourise(u)
  {
  }

  /** Kept distributes over concatenation: filtering keeps the original order. */
  lemma {:induction false} KeptAppend(a: seq<Option<string>>, b: seq<Option<string>>)
    ensures Kept(a + b) == Kept(a) + Kept(b)
    decreases |b|
  {
    if b == [] {
      assert a + b == a;
    } else {
      var b' := b[..|b| - 1];
      assert (a + b)[..|a + b| - 1] == a + b';
      KeptAppend(a, b');
    }
  }

  /** One entry contributes its own text when usable and nothing otherwise. */
  lemma KeptSingle(entry: Option<string>)
    ensures Kept([entry]) == if Usable(entry) then [entry.value] else []
  {
  }

  /** A string is kept exactly when some entry holds it and it is non-empty. */
  lemma {:induction false} KeptMembership(entries: seq<Option<string>>, x: string)
    ensures x in Kept(entries) <==> exists i :: 0 <= i < |entries| && entries[i] == Some(x) && x != []
  {
    if entries != [] {
      var init := entries[..|entries| - 1];
      KeptMembership(init, x);
      if x in Kept(init) {
        var i :| 0 <= i < |init| && init[i] == Some(x) && x != [];
        assert entries[i] == Some(x);
      }
      if exists i :: 0 <= i < |entries| && entries[i] == Some(x) && x != [] {
        var i :| 0 <= i < |entries| && entries[i] == Some(x) && x != [];
        if i < |init| {
          assert init[i] == Some(x);
        }
      }
    }
  }

  /** The number of kept usages is the number of usable positions. */
  lemma {:induction false} KeptCount(entries: seq<Option<string>>)
    ensures |Kept(entries)| == |UsableIndices(entries)|
  {
    if entries != [] {
      var n := |entries| - 1;
      var init := entries[..n];
      KeptCount(init);
      assert forall i :: 0 <= i < n ==> init[i] == entries[i];
      if Usable(entries[n]) {
        assert UsableIndices(entries) == UsableIndices(init) + {n};
      } else {
        assert UsableIndices(entries) == UsableIndices(init);
      }
    }
  }

  /** k usable usages give k + 3 lines. */
  lemma ComposedLength(usages: Option<seq<Option<string>>>)
    ensures |ComposedLines(usages)| == UsableCount(usages) + FixedLineCount
  {
    if usages.Some? {
      KeptCount(usages.value);
    }
  }

  /** The header and the label come first and the hint comes last. */
  lemma ComposedFrame(usages: Option<seq<Option<string>>>)
    ensures var lines := ComposedLines(usages);
      lines[0] == Header && lines[1] == UsageLabel && lines[|lines| - 1] == ClickHint
  {
  }

  /** The k-th usable usage, after the colour rule, is line k + 2. */
  lemma ComposedUsageAt(usages: seq<Option<string>>, k: nat)
    requires k < UsableCount(Some(usages))
    ensures k + 2 < |ComposedLines(Some(usages))|
    ensures k < |Kept(usages)| && ComposedLines(Some(usages))[k + 2] == Colourise(Kept(usages)[k])
  {
    KeptCount(usages);
    var middle := ColourAll(Kept(usages));
    assert ComposedLines(Some(usages)) == [Header, UsageLabel] + middle + [ClickHint];
    assert ComposedLines(Some(usages))[k + 2] == middle[k];
  }

  /** A null array, or one without a usable entry, gives only the three fixed lines. */
  lemma FixedLinesOnly(usages: Option<seq<Option<string>>>)
    requires usages.Some? ==> forall i :: 0 <= i < |usages.value| ==> !Usable(usages.value[i])
    ensures ComposedLines(usages) == [Header, UsageLabel, ClickHint]
  {
    if usages.Some? {
      KeptCount(usages.value);
      assert UsableIndices(usages.value) == {};
    }
  }

  /** A usage line stems from a usable entry, and every usable entry yields one. */
  lemma UsageLineOrigin(usages: seq<Option<string>>, line: string)
    ensures line in ComposedLines(Some(usages))[2..|ComposedLines(Some(usages))| - 1]
      <==> exists i :: 0 <= i < |usages| && Usable(usages[i]) && line == Colourise(usages[i].value)
  {
    var lines := ComposedLines(Some(usages));
    var kept := Kept(usages);
    assert lines[2..|lines| - 1] == ColourAll(kept);
    if line in ColourAll(kept) {
      var k :| 0 <= k < |kept| && ColourAll(kept)[k] == line;
      KeptMembership(usages, kept[k]);
    }
    if exists i :: 0 <= i < |usages| && Usable(usages[i]) && line == Colourise(usages[i].value) {
      var i :| 0 <= i < |usages| && Usable(usages[i]) && line == Colourise(usages[i].value);
      KeptMembership(usages, usages[i].value);
      var k :| 0 <= k < |kept| && kept[k] == usages[i].value;
      assert ColourAll(kept)[k] == line;
    }
  }

  /** Usages ["Use /x <arg>", ""]: four lines, the empty entry is dropped. */
  lemma ExampleUsage()
    ensures ComposedLines(Some([Some("Use /x <arg>"), Some("")]))
         == [Header, UsageLabel, Gray + "Use /x <arg>", ClickHint]
  {
  }
}
