/**
 * The scrollable piano keyboard scene (MyGameSence.swift): white keys laid
 * out left to right, fourteen to a screen, black keys on the boundary after
 * the white keys before them, a horizontal scroll confined to the content,
 * and a one-finger touch state machine that tells a drag (more than 8 points
 * of accumulated horizontal movement) from a tap on a key.
 */
module Piano {
  import opened Geometry
  import opened Wrappers

  /** `KeyData`: one key of the key list (octave, note name, colour, full name). */
  datatype KeyData = KeyData(octave: int, note: string, color: string, fullName: string)

  const KeysPerScreen: real := 14.0
  const LeftEdge: real := 0.0
  /** Accumulated movement beyond which a touch is a drag and no longer a tap. */
  const DragThreshold: real := 8.0
  /** The marker every key node's name contains. */
  const KeyMarker: string := "key_"

  predicate IsWhite(k: KeyData) { k.color == "white" }

  /** The number of white keys in `keys`. */
  function WhiteCount(keys: seq<KeyData>): (n: nat)
    ensures n <= |keys|
  {
    if keys == [] then 0
    else WhiteCount(keys[..|keys| - 1]) + (if IsWhite(keys[|keys| - 1]) then 1 else 0)
  }

  /** The key sizes `layoutKeyboard` derives from the scene size. */
  datatype KeySizes = KeySizes(whiteWidth: real, whiteHeight: real, blackWidth: real, blackHeight: real, centreY: real)

  function Sizes(size: Size): (r: KeySizes)
    ensures r.whiteWidth * KeysPerScreen == size.width
    ensures size.NonNegative() ==> 0.0 <= r.blackWidth <= r.whiteWidth && 0.0 <= r.blackHeight <= r.whiteHeight
  {
    var pianoHeight := size.height / 1.7;
    var whiteWidth := size.width / KeysPerScreen;
    var whiteHeight := pianoHeight * 0.8;
    KeySizes(whiteWidth, whiteHeight, whiteWidth * 0.6, whiteHeight * 0.7, pianoHeight / 2.0)
  }

  /** A key node as `layoutKeyboard` places it: its data, its colour, its centre and its size. */
  datatype PlacedKey = PlacedKey(info: KeyData, white: bool, x: real, y: real, width: real, height: real)

  /** The node name `createWhiteKey` or `createBlackKey` gives a placed key. */
  function NodeName(k: PlacedKey): string
  {
    (if k.white then "white_key_" else "black_key_") + k.info.fullName
  }

  /**
   * Where `layoutKeyboard` puts the key at index `i`: with `j` white keys
   * before it, a white key is centred in cell `j`, a black key sits at the
   * left edge of cell `j`, raised so that its top meets the white keys' top.
   */
  function Placement(keys: seq<KeyData>, i: nat, s: KeySizes): (r: PlacedKey)
    requires i < |keys|
    ensures r.info == keys[i] && r.white == IsWhite(keys[i])
  {
    var j := WhiteCount(keys[..i]);
    if IsWhite(keys[i]) then WhiteKeyAt(keys[i], j, s) else BlackKeyAt(keys[i], j, s)
  }

  /** The node `createWhiteKey` makes for `k`, centred in white-key cell `cell`. */
  function WhiteKeyAt(k: KeyData, cell: nat, s: KeySizes): PlacedKey
  {
    PlacedKey(k, true, LeftEdge + (cell as real + 0.5) * s.whiteWidth, s.centreY, s.whiteWidth, s.whiteHeight)
  }

  /** The node `createBlackKey` makes for `k`, on the left edge of white-key cell `cell`. */
  function BlackKeyAt(k: KeyData, cell: nat, s: KeySizes): PlacedKey
  {
    PlacedKey(k, false, LeftEdge + cell as real * s.whiteWidth,
              s.centreY + (s.whiteHeight - s.blackHeight) * 0.5, s.blackWidth, s.blackHeight)
  }

  /** The width of the laid-out keyboard: one white-key width per white key. */
  function ContentWidth(keys: seq<KeyData>, s: KeySizes): real
  {
    WhiteCount(keys) as real * s.whiteWidth
  }

  /**
   * The position loop of `layoutKeyboard`: walk the keys in order with a
   * running white-key index.  Every key is placed as `Placement` says, and
   * the final index is the number of white keys.
   */
  method PlaceKeys(keys: seq<KeyData>, s: KeySizes) returns (placed: seq<PlacedKey>, whiteIndex: nat)
    ensures whiteIndex == WhiteCount(keys)
    ensures |placed| == |keys|
    ensures forall i :: 0 <= i < |keys| ==> placed[i] == Placement(keys, i, s)
  {
    placed := [];
    whiteIndex := 0;
    for i := 0 to |keys|
      invariant whiteIndex == WhiteCount(keys[..i])
      invariant |placed| == i
      invariant forall j :: 0 <= j < i ==> placed[j] == Placement(keys, j, s)
    {
      var k := keys[i];
      assert keys[..i + 1][..i] == keys[..i];
      if k.color == "white" {
        placed := placed + [WhiteKeyAt(k, whiteIndex, s)];
        whiteIndex := whiteIndex + 1;
      } else {
        placed := placed + [BlackKeyAt(k, whiteIndex, s)];
      }
    }
    assert keys[..|keys|] == keys;
  }

  /** White keys up to `j` include those up to `i`, and one more when key `i` is white. */
  lemma {:induction false} WhiteCountGrows(keys: seq<KeyData>, i: nat, j: nat)
    requires i < j <= |keys|
    ensures WhiteCount(keys[..j]) >= WhiteCount(keys[..i]) + (if IsWhite(keys[i]) then 1 else 0)
  {
    assert keys[..j][..j - 1] == keys[..j - 1];
    if j > i + 1 {
      WhiteCountGrows(keys, i, j - 1);
    } else {
      assert keys[..i + 1][..i] == keys[..i];
    }
  }

  /** With no white key in `keys[a..b]`, the white count does not change from `a` to `b`. */
  lemma {:induction false} WhiteCountFlat(keys: seq<KeyData>, a: nat, b: nat)
    requires a <= b <= |keys|
    requires forall t :: a <= t < b ==> !IsWhite(keys[t])
    ensures WhiteCount(keys[..b]) == WhiteCount(keys[..a])
  {
    if b > a {
      assert keys[..b][..b - 1] == keys[..b - 1];
      WhiteCountFlat(keys, a, b - 1);
    }
  }

  /**
   * White keys are laid out left to right in list order without overlap,
   * each one whole white-key width wide, and all of them within
   * [0, contentWidth].
   */
  lemma WhiteKeysInOrder(keys: seq<KeyData>, s: KeySizes, i: nat, j: nat)
    requires i < j < |keys| && IsWhite(keys[i]) && IsWhite(keys[j])
    requires s.whiteWidth >= 0.0
    ensures Placement(keys, i, s).white && Placement(keys, j, s).white
    ensures Placement(keys, i, s).width == s.whiteWidth == Placement(keys, j, s).width
    ensures Placement(keys, i, s).x + s.whiteWidth <= Placement(keys, j, s).x
  {
    WhiteCountGrows(keys, i, j);
    WhiteKeysApart(keys[i], keys[j], WhiteCount(keys[..i]), WhiteCount(keys[..j]), s);
  }

  /** White keys in cells at least one apart are at least one key width apart. */
  lemma WhiteKeysApart(k1: KeyData, k2: KeyData, c1: nat, c2: nat, s: KeySizes)
    requires c1 < c2 && s.whiteWidth >= 0.0
    ensures WhiteKeyAt(k1, c1, s).x + s.whiteWidth <= WhiteKeyAt(k2, c2, s).x
  {
    MulMonotone(c1 as real + 1.5, c2 as real + 0.5, s.whiteWidth);
  }

  /** Every white key lies within the content: from 0 to `contentWidth`. */
  lemma WhiteKeyWithinContent(keys: seq<KeyData>, s: KeySizes, i: nat)
    requires i < |keys| && IsWhite(keys[i]) && s.whiteWidth >= 0.0
    ensures 0.0 <= Placement(keys, i, s).x - s.whiteWidth / 2.0
    ensures Placement(keys, i, s).x + s.whiteWidth / 2.0 <= ContentWidth(keys, s)
  {
    assert keys[..|keys|] == keys;
    WhiteCountGrows(keys, i, |keys|);
    WhiteKeyInside(keys[i], WhiteCount(keys[..i]), WhiteCount(keys), s);
  }

  /** A white key in a cell below `n` lies between 0 and `n` key widths. */
  lemma WhiteKeyInside(k: KeyData, c: nat, n: nat, s: KeySizes)
    requires c < n && s.whiteWidth >= 0.0
    ensures 0.0 <= WhiteKeyAt(k, c, s).x - s.whiteWidth / 2.0
    ensures WhiteKeyAt(k, c, s).x + s.whiteWidth / 2.0 <= n as real * s.whiteWidth
  {
    MulNonNegative(c as real, s.whiteWidth);
    MulMonotone(c as real + 1.0, n as real, s.whiteWidth);
  }

  /** Placing a prefix of the keys places each of them where the whole list does. */
  lemma PlacementOfPrefix(keys: seq<KeyData>, n: nat, i: nat, s: KeySizes)
    requires i < n <= |keys|
    ensures Placement(keys[..n], i, s) == Placement(keys, i, s)
  {
    assert keys[..n][..i] == keys[..i];
  }

  /**
   * The white keys fill the content cell by cell: for every cell `r` below
   * the white count there is a white key whose centre is that cell's centre.
   */
  lemma {:induction false} WhiteKeyInEveryCell(keys: seq<KeyData>, s: KeySizes, r: nat)
    requires r < WhiteCount(keys)
    ensures exists i :: 0 <= i < |keys| && Placement(keys, i, s).white
                        && Placement(keys, i, s).x == (r as real + 0.5) * s.whiteWidth
  {
    var n := |keys| - 1;
    var init := keys[..n];
    if r < WhiteCount(init) {
      WhiteKeyInEveryCell(init, s, r);
      var i :| 0 <= i < |init| && Placement(init, i, s).white
               && Placement(init, i, s).x == (r as real + 0.5) * s.whiteWidth;
      PlacementOfPrefix(keys, n, i, s);
    } else {
      assert IsWhite(keys[n]) && WhiteCount(keys[..n]) == r;
      assert Placement(keys, n, s).white;
    }
  }

  /**
   * A black key that follows the white key at `p` with only black keys in
   * between sits on that white key's right edge, i.e. on the boundary
   * between its cell and the next.
   */
  lemma BlackKeyOnRightEdge(keys: seq<KeyData>, s: KeySizes, p: nat, i: nat)
    requires p < i < |keys| && IsWhite(keys[p]) && !IsWhite(keys[i])
    requires forall t :: p < t < i ==> !IsWhite(keys[t])
    ensures Placement(keys, i, s).x == Placement(keys, p, s).x + s.whiteWidth / 2.0
  {
    WhiteCountFlat(keys, p + 1, i);
    assert keys[..p + 1][..p] == keys[..p];
    BlackAfterWhite(keys[p], keys[i], WhiteCount(keys[..p]), s);
  }

  /** A black key on the left edge of the cell after a white key's cell is on that white key's right edge. */
  lemma BlackAfterWhite(white: KeyData, black: KeyData, c: nat, s: KeySizes)
    ensures BlackKeyAt(black, c + 1, s).x == WhiteKeyAt(white, c, s).x + s.whiteWidth / 2.0
  {
  }

  /** A black key with no white key before it sits at the keyboard's left edge. */
  lemma LeadingBlackKeyAtLeftEdge(keys: seq<KeyData>, s: KeySizes, i: nat)
    requires i < |keys| && !IsWhite(keys[i])
    requires forall t :: 0 <= t < i ==> !IsWhite(keys[t])
    ensures Placement(keys, i, s).x == LeftEdge
  {
    WhiteCountFlat(keys, 0, i);
  }

  /**
   * A black key is 0.6 of a white key wide and 0.7 of its height, and is
   * raised by half the height difference so that its top edge lines up with
   * the white keys' top edge.
   */
  lemma BlackKeyShape(keys: seq<KeyData>, size: Size, i: nat)
    requires i < |keys| && !IsWhite(keys[i])
    ensures var s := Sizes(size);
            var k := Placement(keys, i, s);
            !k.white && k.width == 0.6 * s.whiteWidth && k.height == 0.7 * s.whiteHeight
            && k.y + k.height / 2.0 == s.centreY + s.whiteHeight / 2.0
  {
  }

  /**
   * `clampKeyboardX`: confine the scroll offset to [min(0, view - content), 0],
   * so the keyboard never scrolls past either end of its content.
   */
  function ClampScroll(x: real, viewWidth: real, contentWidth: real): (r: real)
    ensures Min(0.0, viewWidth - contentWidth) <= r <= 0.0
    ensures Min(0.0, viewWidth - contentWidth) <= x <= 0.0 ==> r == x
    ensures x > 0.0 ==> r == 0.0
    ensures x < Min(0.0, viewWidth - contentWidth) ==> r == Min(0.0, viewWidth - contentWidth)
  {
    var minX := Min(0.0, viewWidth - contentWidth);
    Max(minX, Min(0.0, x))
  }

  /** Clamping twice is clamping once, and content no wider than the view pins the scroll at 0. */
  lemma ClampScrollIdempotent(x: real, viewWidth: real, contentWidth: real)
    ensures ClampScroll(ClampScroll(x, viewWidth, contentWidth), viewWidth, contentWidth)
            == ClampScroll(x, viewWidth, contentWidth)
    ensures contentWidth <= viewWidth ==> ClampScroll(x, viewWidth, contentWidth) == 0.0
  {
  }

  /** Offsets of the black keys within an octave, in white-key widths from the octave's C. */
  const BlackKeyOffsets: map<string, real> :=
    map["C#" := 0.5, "D#" := 1.5, "F#" := 3.5, "G#" := 4.5, "A#" := 5.5]

  /**
   * `getBlackKeyPosition`: the centre of a black key counted from the C of
   * `baseOctave`, seven white keys to an octave; the left edge for any note
   * not in the offset table.
   */
  function GetBlackKeyPosition(key: KeyData, whiteKeyWidth: real, leftEdge: real, baseOctave: int): (x: real)
    ensures key.note !in BlackKeyOffsets ==> x == leftEdge
  {
    if key.note in BlackKeyOffsets then
      var octaveOffset := (key.octave - baseOctave) as real * 7.0;
      leftEdge + (octaveOffset + BlackKeyOffsets[key.note] + 0.5) * whiteKeyWidth
    else
      leftEdge
  }

  /** The index of a natural note's white key within its octave, C being 0 and B 6. */
  function WhiteIndexInOctave(letter: char): int
  {
    match letter
    case 'C' => 0 case 'D' => 1 case 'E' => 2 case 'F' => 3
    case 'G' => 4 case 'A' => 5 case 'B' => 6
    case _ => -1
  }

  /**
   * A black key's position is the right edge of the white key of its
   * natural (C for C#, D for D#, ...), counting white keys from the C of
   * `baseOctave` as cell 0: a boundary between two white-key cells.
   */
  lemma BlackKeyBetweenWhiteKeys(key: KeyData, whiteKeyWidth: real, leftEdge: real, baseOctave: int)
    requires key.note in BlackKeyOffsets
    ensures |key.note| == 2 && key.note[1] == '#' && 0 <= WhiteIndexInOctave(key.note[0]) < 6
    ensures GetBlackKeyPosition(key, whiteKeyWidth, leftEdge, baseOctave)
            == leftEdge + ((key.octave - baseOctave) * 7 + WhiteIndexInOctave(key.note[0]) + 1) as real * whiteKeyWidth
  {
    var o := (key.octave - baseOctave) as real * 7.0;
    var n := key.note;
    assert n == "C#" || n == "D#" || n == "F#" || n == "G#" || n == "A#";
    assert BlackKeyOffsets[n] + 0.5 == (WhiteIndexInOctave(n[0]) + 1) as real;
  }

  /** A node of the scene graph, with its name and the chain of its ancestors. */
  datatype Node = Node(name: Option<string>, parent: Option<Node>)

  /** `s` contains `sub` as a contiguous substring. */
  predicate Contains(s: string, sub: string)
    decreases |s|
  {
    (|sub| <= |s| && s[..|sub|] == sub) || (|s| > 0 && Contains(s[1..], sub))
  }

  /** A node whose name contains "key_": a white or black key. */
  predicate IsKeyNode(n: Node) { n.name.Some? && Contains(n.name.value, KeyMarker) }

  /** `sub` is found anywhere after a prefix. */
  lemma {:induction false} ContainsAfterPrefix(prefix: string, sub: string, rest: string)
    ensures Contains(prefix + sub + rest, sub)
  {
    var s := prefix + sub + rest;
    if prefix == [] {
      assert s[..|sub|] == sub;
    } else {
      assert s[1..] == prefix[1..] + sub + rest;
      ContainsAfterPrefix(prefix[1..], sub, rest);
    }
  }

  /** Every key `layoutKeyboard` places carries a name that marks it as a key node. */
  lemma PlacedKeyIsKeyNode(keys: seq<KeyData>, s: KeySizes, i: nat, parent: Option<Node>)
    requires i < |keys|
    ensures IsKeyNode(Node(Some(NodeName(Placement(keys, i, s))), parent))
  {
    var f := keys[i].fullName;
    if IsWhite(keys[i]) {
      assert NodeName(Placement(keys, i, s)) == "white_" + KeyMarker + f;
      ContainsAfterPrefix("white_", KeyMarker, f);
    } else {
      assert NodeName(Placement(keys, i, s)) == "black_" + KeyMarker + f;
      ContainsAfterPrefix("black_", KeyMarker, f);
    }
  }

  /** `n` followed by its ancestors, nearest first. */
  function Ancestry(n: Node): (chain: seq<Node>)
    ensures |chain| > 0 && chain[0] == n
  {
    match n.parent
    case None => [n]
    case Some(p) => [n] + Ancestry(p)
  }

  /** The ancestries of `nodes`, one after the other. */
  function Chains(nodes: seq<Node>): seq<Node>
  {
    if nodes == [] then [] else Ancestry(nodes[0]) + Chains(nodes[1..])
  }

  /** The first key node of `s`, if any. */
  function FirstKey(s: seq<Node>): (r: Option<Node>)
    ensures r.None? <==> forall j :: 0 <= j < |s| ==> !IsKeyNode(s[j])
    ensures r.Some? ==> exists k :: 0 <= k < |s| && s[k] == r.value && IsKeyNode(s[k])
                                    && forall j :: 0 <= j < k ==> !IsKeyNode(s[j])
  {
    if s == [] then None
    else if IsKeyNode(s[0]) then Some(s[0])
    else
      var r := FirstKey(s[1..]);
      assert forall j :: 1 <= j < |s| ==> s[j] == s[1..][j - 1];
      if r.Some? then
        var k :| 0 <= k < |s[1..]| && s[1..][k] == r.value && IsKeyNode(s[1..][k])
                 && forall j :: 0 <= j < k ==> !IsKeyNode(s[1..][j]);
        assert s[k + 1] == r.value;
        r
      else
        r
  }

  /** The first key node of a concatenation is the first of the left part, or else of the right part. */
  lemma {:induction false} FirstKeyAppend(a: seq<Node>, b: seq<Node>)
    ensures FirstKey(a + b) == if FirstKey(a).Some? then FirstKey(a) else FirstKey(b)
  {
    if a != [] {
      assert (a + b)[0] == a[0];
      assert (a + b)[1..] == a[1..] + b;
      FirstKeyAppend(a[1..], b);
    } else {
      assert a + b == b;
    }
  }

  /**
   * `resolveKeyNode`: for each hit node in order, walk it and its parents
   * upward and return the first node whose name contains "key_"; nil when
   * none does.  The result is the first key node of the hit nodes'
   * ancestries taken in order.
   */
  method ResolveKeyNode(nodes: seq<Node>) returns (r: Option<Node>)
    ensures r == FirstKey(Chains(nodes))
  {
    for i := 0 to |nodes|
      invariant FirstKey(Chains(nodes)) == FirstKey(Chains(nodes[i..]))
    {
      var n := nodes[i];
      assert nodes[i..][1..] == nodes[i + 1..];
      FirstKeyAppend(Ancestry(n), Chains(nodes[i + 1..]));
      var cur: Option<Node> := Some(n);
      ghost var rest: seq<Node> := Ancestry(n);
      while cur.Some?
        invariant cur.Some? ==> rest == Ancestry(cur.value)
        invariant cur.None? ==> rest == []
        invariant FirstKey(Ancestry(n)) == FirstKey(rest)
        decreases |rest|
      {
        var c := cur.value;
        if c.name.Some? && Contains(c.name.value, KeyMarker) {
          return Some(c);
        }
        cur := c.parent;
        rest := rest[1..];
      }
    }
    assert nodes[|nodes|..] == [];
    r := None;
  }

  /**
   * The keyboard scene: the key list, the laid-out keys, the scroll offset
   * of the keyboard node, the content width, and the touch state.
   */
  class PianoScene {
    var size: Size
    var keyData: seq<KeyData>
    var keys: seq<PlacedKey>
    var keyboardX: real
    var contentWidth: real
    var lastTouchX: real
    var totalDrag: real
    var isDragging: bool
    var pressedCandidate: Option<Node>

    /** The touch state: the drag flag is set exactly when the accumulated movement passed the threshold. */
    ghost predicate TouchValid()
      reads this
    {
      && totalDrag >= 0.0
      && isDragging == (totalDrag > DragThreshold)
      && (pressedCandidate.Some? ==> IsKeyNode(pressedCandidate.value))
    }

    /** The layout: keys placed from the key list, content width from the white keys, scroll within range. */
    ghost predicate LayoutValid()
      reads this
    {
      && |keys| == |keyData|
      && (forall i :: 0 <= i < |keyData| ==> keys[i] == Placement(keyData, i, Sizes(size)))
      && contentWidth == ContentWidth(keyData, Sizes(size))
      && Min(0.0, size.width - contentWidth) <= keyboardX <= 0.0
    }

    ghost predicate Valid()
      reads this
    {
      TouchValid() && LayoutValid()
    }

    /** `didMove(to:)` with the key list already loaded: lay the keyboard out. */
    constructor (sceneSize: Size, data: seq<KeyData>)
      ensures Valid()
      ensures size == sceneSize && keyData == data
      ensures keyboardX == 0.0 && !isDragging && totalDrag == 0.0 && pressedCandidate == None
    {
      size := sceneSize;
      keyData := data;
      keys := [];
      keyboardX := 0.0;
      contentWidth := 0.0;
      lastTouchX := 0.0;
      totalDrag := 0.0;
      isDragging := false;
      pressedCandidate := None;
      new;
      LayoutKeyboard();
    }

    /** `clampKeyboardX`. */
    method ClampKeyboardX()
      modifies this`keyboardX
      ensures keyboardX == ClampScroll(old(keyboardX), size.width, contentWidth)
    {
      var minX := Min(0.0, size.width - contentWidth);
      keyboardX := Max(minX, Min(0.0, keyboardX));
    }

    /**
     * `layoutKeyboard`: replace the keys, set the content width from the
     * white keys, then reset the scroll to 0 when the content fits the
     * view, and clamp it otherwise.
     */
    method LayoutKeyboard()
      requires TouchValid()
      modifies this`keys, this`contentWidth, this`keyboardX
      ensures Valid()
      ensures contentWidth == ContentWidth(keyData, Sizes(size))
      ensures keyboardX == if contentWidth <= size.width then 0.0
                           else ClampScroll(old(keyboardX), size.width, contentWidth)
    {
      var s := Sizes(size);
      var placed, whiteIndex := PlaceKeys(keyData, s);
      keys := placed;
      contentWidth := ContentWidth(keyData, s);
      if contentWidth <= size.width {
        keyboardX := 0.0;
      } else {
        ClampKeyboardX();
      }
    }

    /** `didChangeSize`: lay the keyboard out again for the new size. */
    method DidChangeSize(newSize: Size)
      requires Valid()
      modifies this`size, this`keys, this`contentWidth, this`keyboardX
      ensures Valid() && size == newSize
      ensures contentWidth == ContentWidth(keyData, Sizes(newSize))
      ensures keyboardX == if contentWidth <= size.width then 0.0
                           else ClampScroll(old(keyboardX), size.width, contentWidth)
    {
      size := newSize;
      LayoutKeyboard();
    }

    /**
     * `touchesBegan`: remember where the touch started, clear the drag
     * state, and take the key under the touch (from the nodes hit there) as
     * the tap candidate.  Nothing changes without a touch.
     */
    method TouchesBegan(touch: Option<Point>, hits: seq<Node>)
      requires Valid()
      modifies this`lastTouchX, this`totalDrag, this`isDragging, this`pressedCandidate
      ensures Valid()
      ensures touch.None? ==> unchanged(this)
      ensures touch.Some? ==>
                lastTouchX == touch.value.x && totalDrag == 0.0 && !isDragging
                && pressedCandidate == FirstKey(Chains(hits))
    {
      if touch.None? {
        return;
      }
      lastTouchX := touch.value.x;
      totalDrag := 0.0;
      isDragging := false;
      pressedCandidate := ResolveKeyNode(hits);
    }

    /**
     * `touchesMoved`: scroll by the horizontal movement when the content is
     * wider than the view (then clamp), add the movement's magnitude to the
     * accumulated drag, and mark a drag once it passes 8 points.
     */
    method TouchesMoved(touch: Option<Point>)
      requires Valid()
      modifies this`lastTouchX, this`totalDrag, this`isDragging, this`keyboardX
      ensures Valid()
      ensures touch.None? ==> unchanged(this)
      ensures touch.Some? ==>
                var dx := touch.value.x - old(lastTouchX);
                && lastTouchX == touch.value.x
                && totalDrag == old(totalDrag) + Abs(dx)
                && keyboardX == (if contentWidth > size.width
                                 then ClampScroll(old(keyboardX) + dx, size.width, contentWidth)
                                 else old(keyboardX))
      ensures totalDrag >= old(totalDrag)
      ensures old(isDragging) ==> isDragging
      ensures contentWidth <= size.width ==> keyboardX == old(keyboardX) == 0.0
    {
      if touch.None? {
        return;
      }
      var x := touch.value.x;
      var dx := x - lastTouchX;
      lastTouchX := x;
      if contentWidth > size.width {
        keyboardX := keyboardX + dx;
        ClampKeyboardX();
      }
      totalDrag := totalDrag + Abs(dx);
      if totalDrag > DragThreshold {
        isDragging := true;
      }
    }

    /**
     * `touchesEnded`: the candidate key is tapped (returned) only when the
     * touch was not a drag; in every case the touch state is cleared.
     */
    method TouchesEnded() returns (tapped: Option<Node>)
      requires Valid()
      modifies this`totalDrag, this`isDragging, this`pressedCandidate
      ensures Valid()
      ensures tapped == if old(isDragging) then None else old(pressedCandidate)
      ensures tapped.Some? ==> IsKeyNode(tapped.value) && old(totalDrag) <= DragThreshold
      ensures pressedCandidate == None && !isDragging && totalDrag == 0.0
    {
      if !isDragging && pressedCandidate.Some? {
        tapped := pressedCandidate;
      } else {
        tapped := None;
      }
      pressedCandidate := None;
      isDragging := false;
      totalDrag := 0.0;
    }

    /** `touchesCancelled`: clear the touch state without tapping. */
    method TouchesCancelled()
      requires Valid()
      modifies this`totalDrag, this`isDragging, this`pressedCandidate
      ensures Valid()
      ensures pressedCandidate == None && !isDragging && totalDrag == 0.0
    {
      pressedCandidate := None;
      isDragging := false;
      totalDrag := 0.0;
    }
  }
}
