/**
 * Leader identity: the record a match keeps for each side, its grouping key
 * (`getLeaderKey`) and its display form (`getLeaderDisplayName`).
 *
 * A leader record may come from the card catalog, from the built-in fallback
 * list (which has no card id or image) or from an old stored match; a field the
 * record lacks is the empty string here, and a missing `colors` list is the
 * empty list, which every use treats alike. A missing leader is `None`.
 */
module Identity {
  import opened Wrappers
  import opened Text

  datatype Leader = Leader(name: string, colors: seq<string>, setId: string, cardId: string, image: string)

  /** The condition under which both builders fall back to their sentinel. */
  predicate Named(leader: Option<Leader>) {
    leader.Some? && leader.value.name != ""
  }

  /** `leader.set || "?"` */
  function SetOrUnknown(setId: string): (r: string)
    ensures r != ""
    ensures setId != "" ==> r == setId
    ensures setId == "" ==> r == "?"
  {
    if setId == "" then "?" else setId
  }

  /** `getLeaderKey`: name, comma-joined colours and set, separated by bars; "unknown" without a name. */
  function LeaderKey(leader: Option<Leader>): (r: string)
    ensures r == "unknown" <==> !Named(leader)
    ensures Named(leader) ==> '|' in r
  {
    if !Named(leader) then "unknown"
    else
      var l := leader.value;
      var r := l.name + "|" + Join(l.colors, ",") + "|" + SetOrUnknown(l.setId);
      assert r[|l.name|] == '|';
      r
  }

  /** The six colours `colorEmojis` has an icon for. */
  predicate KnownColor(color: string) {
    color in {"Red", "Blue", "Green", "Yellow", "Purple", "Black"}
  }

  /** The icon `colorEmojis` gives a colour, or the colour itself when it has none. */
  function ColorIcon(color: string): (r: string)
    ensures KnownColor(color) ==> |r| == 1 && r != color
    ensures !KnownColor(color) ==> r == color
  {
    match color
    case "Red" => "\U{1F534}"
    case "Blue" => "\U{1F535}"
    case "Green" => "\U{1F7E2}"
    case "Yellow" => "\U{1F7E1}"
    case "Purple" => "\U{1F7E3}"
    case "Black" => "\U{26AB}"
    case _ => color
  }

  /** `colors.map(c => colorEmojis[c] || c).join("")` */
  function ColorIcons(colors: seq<string>): string {
    if colors == [] then "" else ColorIcon(colors[0]) + ColorIcons(colors[1..])
  }

  /** Known colours each become one icon character. */
  lemma {:induction false} ColorIconsKnown(colors: seq<string>)
    requires forall i :: 0 <= i < |colors| ==> KnownColor(colors[i])
    ensures |ColorIcons(colors)| == |colors|
    decreases |colors|
  {
    if colors != [] {
      ColorIconsKnown(colors[1..]);
    }
  }

  /** Colours without an icon are written out as they are, with nothing between them. */
  lemma {:induction false} ColorIconsUnknown(colors: seq<string>)
    requires forall i :: 0 <= i < |colors| ==> !KnownColor(colors[i])
    ensures ColorIcons(colors) == Join(colors, "")
    decreases |colors|
  {
    if |colors| == 1 {
      assert ColorIcons(colors) == colors[0] + "";
    } else if |colors| > 1 {
      ColorIconsUnknown(colors[1..]);
    }
  }

  /** `getLeaderDisplayName`: "name icons [set]", or "Unknown" without a name. */
  function DisplayName(leader: Option<Leader>): (r: string)
    ensures r == "Unknown" <==> !Named(leader)
    ensures Named(leader) ==>
      var l := leader.value;
      var tail := " [" + SetOrUnknown(l.setId) + "]";
      && IsPrefix(l.name + " ", r) && IsSuffix(tail, r)
      && |r| == |l.name| + 1 + |ColorIcons(l.colors)| + |tail|
      && r[|l.name| + 1..|r| - |tail|] == ColorIcons(l.colors)
  {
    if !Named(leader) then "Unknown"
    else
      var l := leader.value;
      var head, icons, tail := l.name + " ", ColorIcons(l.colors), " [" + SetOrUnknown(l.setId) + "]";
      var r := head + icons + tail;
      assert r[|r| - 1] == ']' && "Unknown"[6] == 'n';
      assert r[..|head|] == head && r[|r| - |tail|..] == tail && r[|head|..|r| - |tail|] == icons;
      r
  }

  /** The grouping key ignores the card id and the image: two printings of one leader share it. */
  lemma KeyIgnoresCardIdAndImage(a: Leader, b: Leader)
    requires a.name == b.name && a.colors == b.colors && a.setId == b.setId
    ensures LeaderKey(Some(a)) == LeaderKey(Some(b))
    ensures DisplayName(Some(a)) == DisplayName(Some(b))
  {
  }

  lemma {:induction false} JoinAvoids(xs: seq<string>, sep: string, c: char)
    requires c !in sep
    requires forall i :: 0 <= i < |xs| ==> c !in xs[i]
    ensures c !in Join(xs, sep)
    decreases |xs|
  {
    if |xs| > 1 {
      JoinAvoids(xs[1..], sep, c);
    }
  }

  /** Colours fit in a key when none of them is empty of pieces or holds a separator. */
  predicate KeyableColors(colors: seq<string>) {
    |colors| >= 1 && forall i :: 0 <= i < |colors| ==> ',' !in colors[i] && '|' !in colors[i]
  }

  /**
   * Two named leaders get the same key exactly when their names, colour lists
   * and sets (with "?" for a missing set) agree, provided the name holds no bar
   * and the colours hold neither bar nor comma (colours split from the card
   * feed are never an empty list).
   */
  lemma KeyIdentifiesLeader(a: Leader, b: Leader)
    requires a.name != "" && b.name != ""
    requires '|' !in a.name && '|' !in b.name
    requires KeyableColors(a.colors) && KeyableColors(b.colors)
    ensures LeaderKey(Some(a)) == LeaderKey(Some(b))
        <==> a.name == b.name && a.colors == b.colors && SetOrUnknown(a.setId) == SetOrUnknown(b.setId)
  {
    var ja, jb := Join(a.colors, ","), Join(b.colors, ",");
    var sa, sb := SetOrUnknown(a.setId), SetOrUnknown(b.setId);
    if LeaderKey(Some(a)) == LeaderKey(Some(b)) {
      assert LeaderKey(Some(a)) == a.name + ['|'] + (ja + "|" + sa);
      assert LeaderKey(Some(b)) == b.name + ['|'] + (jb + "|" + sb);
      SeparatedPrefix(a.name, ja + "|" + sa, b.name, jb + "|" + sb, '|');
      JoinAvoids(a.colors, ",", '|');
      JoinAvoids(b.colors, ",", '|');
      assert ja + ['|'] + sa == jb + ['|'] + sb;
      SeparatedPrefix(ja, sa, jb, sb, '|');
      SplitJoin(a.colors, ',');
      SplitJoin(b.colors, ',');
    }
  }
}
