/**
 * The dialogue screen (src/screens/MagicWordsScreen.ts): speaker and emoji
 * tables built from the dialogue data, one message container per dialogue
 * line laid out as avatar, name and a left-to-right flow of text and emoji
 * runs, and the resize relayout that walks the built containers again.
 * Text sizes come from the engine and are given as `Metrics`.
 */
module MagicWords {
  import opened DialogueText

  /** Padding between elements. */
  const Padding: real := 10.0
  const AvatarSize: real := 64.0
  const EmojiSize: real := 24.0
  /** The y of the first message container. */
  const FirstMessageY: real := 50.0
  /** The vertical step from one message container to the next. */
  const MessageSpacing: real := AvatarSize + Padding * 2.0

  datatype AvatarEntry = AvatarEntry(name: string, url: string, position: string)
  datatype EmojiEntry = EmojiEntry(name: string, url: string)
  datatype Message = Message(name: string, text: string)
  /** The decoded dialogue document: speakers, emojis and the lines spoken. */
  datatype Dialogue = Dialogue(avatars: seq<AvatarEntry>, emojies: seq<EmojiEntry>, dialogue: seq<Message>)
  datatype AvatarData = AvatarData(url: string, position: string)

  /** What a child of a message container is: an image (avatar or emoji) or a text label. */
  datatype NodeKind = Image | Label

  /** A child of a message container; `source` is the image url or the label's text. */
  datatype Node = Node(kind: NodeKind, source: string, x: real, y: real, width: real, height: real)

  /** A message container: its position and its children in order. */
  datatype MessageBox = MessageBox(x: real, y: real, children: seq<Node>)

  /** The engine's text measurements: name labels and dialogue runs use different font sizes. */
  datatype Metrics = Metrics(nameWidth: string -> real, nameHeight: string -> real,
                             textWidth: string -> real, textHeight: string -> real)

  /** Nodes laid out left to right and the x offset after the last one. */
  datatype Flow = Flow(nodes: seq<Node>, xEnd: real)

  /** The map that `entries.forEach(e => m.set(e.key, e.value))` fills from empty. */
  function MapOf<V>(entries: seq<(string, V)>): map<string, V>
    decreases |entries|
  {
    if entries == [] then map[]
    else
      var n := |entries|;
      MapOf(entries[..n - 1])[entries[n - 1].0 := entries[n - 1].1]
  }

  /** The keys of the map are the names in the entries, and for each name the last entry carrying it wins. */
  lemma {:induction false} MapOfLastWins<V>(entries: seq<(string, V)>, key: string)
    ensures key in MapOf(entries) <==> exists i :: 0 <= i < |entries| && entries[i].0 == key
    ensures key in MapOf(entries) ==>
              exists i :: 0 <= i < |entries| && entries[i].0 == key && MapOf(entries)[key] == entries[i].1 &&
                          forall j :: i < j < |entries| ==> entries[j].0 != key
    decreases |entries|
  {
    if entries != [] {
      var n := |entries|;
      var prefix := entries[..n - 1];
      MapOfLastWins(prefix, key);
      if entries[n - 1].0 == key {
        assert MapOf(entries)[key] == entries[n - 1].1;
      } else {
        assert key in MapOf(entries) <==> key in MapOf(prefix);
        if key in MapOf(prefix) {
          var i :| 0 <= i < |prefix| && prefix[i].0 == key && MapOf(prefix)[key] == prefix[i].1 &&
                   forall j :: i < j < |prefix| ==> prefix[j].0 != key;
          assert entries[i] == prefix[i];
        }
        forall i | 0 <= i < |entries| && entries[i].0 == key
          ensures key in MapOf(prefix)
        {
          assert prefix[i] == entries[i];
        }
      }
    }
  }

  /** Adds `entries` to `m` one by one, the way the screen fills its speaker and emoji maps. */
  method FillMap<V>(m: map<string, V>, entries: seq<(string, V)>) returns (r: map<string, V>)
    ensures r == m + MapOf(entries)
  {
    r := m;
    var i := 0;
    while i < |entries|
      invariant 0 <= i <= |entries|
      invariant r == m + MapOf(entries[..i])
    {
      assert entries[..i + 1][..i] == entries[..i];
      r := r[entries[i].0 := entries[i].1];
      i := i + 1;
    }
    assert entries[..i] == entries;
  }

  /** Adding entries to an empty map gives just those entries. */
  lemma EmptyMerge<V>(entries: map<string, V>)
    ensures map[] + entries == entries
  {
  }

  /** The speaker table entries: name to url and position. */
  function AvatarPairs(avatars: seq<AvatarEntry>): seq<(string, AvatarData)> {
    seq(|avatars|, i requires 0 <= i < |avatars| => (avatars[i].name, AvatarData(avatars[i].url, avatars[i].position)))
  }

  /** The emoji table entries: name to url. */
  function EmojiPairs(emojies: seq<EmojiEntry>): seq<(string, string)> {
    seq(|emojies|, i requires 0 <= i < |emojies| => (emojies[i].name, emojies[i].url))
  }

  /** An emoji that renders: its name is in the table with a non-empty url (an empty url is falsy). */
  predicate KnownEmoji(emojis: map<string, string>, name: string) {
    name in emojis && emojis[name] != ""
  }

  /** How the renderer treats one part of a split message. */
  datatype Part = TextPart(text: string) | EmojiPart(url: string) | Dropped

  /**
   * A part that passes the placeholder test is an emoji when its trimmed
   * name is known and is dropped otherwise; every other part, empty ones
   * included, is text.
   */
  function Classify(part: string, emojis: map<string, string>): Part {
    if IsPlaceholder(part) then
      var name := EmojiName(part);
      if KnownEmoji(emojis, name) then EmojiPart(emojis[name]) else Dropped
    else TextPart(part)
  }

  /**
   * On the parts of a split message, the renderer's test agrees with the
   * split: every separator is read as an emoji or dropped, never as text,
   * and a text part is read as a placeholder only when it starts with `{}`.
   */
  lemma SplitClassified(s: string, emojis: map<string, string>)
    ensures forall i :: 0 <= i < |Split(s)| && i % 2 == 1 ==> !Classify(Split(s)[i], emojis).TextPart?
    ensures forall i :: 0 <= i < |Split(s)| && i % 2 == 0 && !Classify(Split(s)[i], emojis).TextPart? ==>
              |Split(s)[i]| >= 2 && Split(s)[i][..2] == "{}"
  {
    var parts := Split(s);
    SplitParts(s);
    forall i | 0 <= i < |parts|
      ensures i % 2 == 1 ==> !Classify(parts[i], emojis).TextPart?
      ensures i % 2 == 0 && !Classify(parts[i], emojis).TextPart? ==> |parts[i]| >= 2 && parts[i][..2] == "{}"
    {
      if i % 2 == 1 {
        TokenIsPlaceholder(parts[i]);
      } else if IsPlaceholder(parts[i]) {
        PlainPlaceholderStartsEmpty(parts[i]);
      }
    }
  }

  /**
   * The dialogue runs of one message, left to right from `x`: an emoji is a
   * 24-pixel image followed by padding, a dropped part emits nothing and
   * keeps the offset, a text part is a label followed by padding.
   */
  function Layout(parts: seq<string>, x: real, y: real, emojis: map<string, string>, m: Metrics): Flow
    decreases |parts|
  {
    if parts == [] then Flow([], x)
    else
      match Classify(parts[0], emojis)
      case EmojiPart(url) =>
        var rest := Layout(parts[1..], x + EmojiSize + Padding, y, emojis, m);
        Flow([Node(Image, url, x, y, EmojiSize, EmojiSize)] + rest.nodes, rest.xEnd)
      case Dropped =>
        Layout(parts[1..], x, y, emojis, m)
      case TextPart(text) =>
        var w := m.textWidth(text);
        var rest := Layout(parts[1..], x + w + Padding, y, emojis, m);
        Flow([Node(Label, text, x, y, w, m.textHeight(text))] + rest.nodes, rest.xEnd)
  }

  /** The resize recurrence: each child moves to the running offset, which then advances by the child's width and padding. */
  function Reflow(children: seq<Node>, x: real, y: real): Flow
    decreases |children|
  {
    if children == [] then Flow([], x)
    else
      var rest := Reflow(children[1..], x + children[0].width + Padding, y);
      Flow([children[0].(x := x, y := y)] + rest.nodes, rest.xEnd)
  }

  /** One emoji step of `ReflowLayout`, given the claim for the remaining parts. */
  lemma ReflowLayoutEmojiStep(parts: seq<string>, x: real, y: real, x': real, y': real,
                              emojis: map<string, string>, m: Metrics, url: string)
    requires parts != [] && Classify(parts[0], emojis) == EmojiPart(url)
    requires Reflow(Layout(parts[1..], x + EmojiSize + Padding, y, emojis, m).nodes, x' + EmojiSize + Padding, y') ==
             Layout(parts[1..], x' + EmojiSize + Padding, y', emojis, m)
    ensures Reflow(Layout(parts, x, y, emojis, m).nodes, x', y') == Layout(parts, x', y', emojis, m)
  {
    var here := Layout(parts, x, y, emojis, m);
    var rest := Layout(parts[1..], x + EmojiSize + Padding, y, emojis, m);
    assert here.nodes == [Node(Image, url, x, y, EmojiSize, EmojiSize)] + rest.nodes;
    assert here.nodes[1..] == rest.nodes;
  }

  /** One text step of `ReflowLayout`, given the claim for the remaining parts. */
  lemma ReflowLayoutTextStep(parts: seq<string>, x: real, y: real, x': real, y': real,
                             emojis: map<string, string>, m: Metrics, text: string, next: real, next': real)
    requires parts != [] && Classify(parts[0], emojis) == TextPart(text)
    requires next == x + m.textWidth(text) + Padding && next' == x' + m.textWidth(text) + Padding
    requires Reflow(Layout(parts[1..], next, y, emojis, m).nodes, next', y') == Layout(parts[1..], next', y', emojis, m)
    ensures Reflow(Layout(parts, x, y, emojis, m).nodes, x', y') == Layout(parts, x', y', emojis, m)
  {
    var w, h := m.textWidth(text), m.textHeight(text);
    var rest, rest' := Layout(parts[1..], next, y, emojis, m), Layout(parts[1..], next', y', emojis, m);
    var here := Layout(parts, x, y, emojis, m);
    var head := Node(Label, text, x, y, w, h);
    assert here == Flow([head] + rest.nodes, rest.xEnd);
    ReflowCons(head, rest.nodes, x', y', next');
    assert Layout(parts, x', y', emojis, m) == Flow([Node(Label, text, x', y', w, h)] + rest'.nodes, rest'.xEnd);
  }

  /** Reflowing a list with a first child moves that child and reflows the rest from just past it. */
  lemma ReflowCons(n: Node, ns: seq<Node>, x: real, y: real, next: real)
    requires next == x + n.width + Padding
    ensures Reflow([n] + ns, x, y) == Flow([n.(x := x, y := y)] + Reflow(ns, next, y).nodes, Reflow(ns, next, y).xEnd)
  {
    assert ([n] + ns)[1..] == ns;
  }

  /** Resize uses the rendering recurrence: reflowing laid-out runs from a new start is laying them out from there. */
  lemma {:induction false} ReflowLayout(parts: seq<string>, x: real, y: real, x': real, y': real,
                                        emojis: map<string, string>, m: Metrics)
    ensures Reflow(Layout(parts, x, y, emojis, m).nodes, x', y') == Layout(parts, x', y', emojis, m)
    decreases |parts|
  {
    if parts != [] {
      match Classify(parts[0], emojis)
      case EmojiPart(url) =>
        ReflowLayout(parts[1..], x + EmojiSize + Padding, y, x' + EmojiSize + Padding, y', emojis, m);
        ReflowLayoutEmojiStep(parts, x, y, x', y', emojis, m, url);
      case Dropped =>
        ReflowLayout(parts[1..], x, y, x', y', emojis, m);
      case TextPart(text) =>
        var next, next' := x + m.textWidth(text) + Padding, x' + m.textWidth(text) + Padding;
        ReflowLayout(parts[1..], next, y, next', y', emojis, m);
        ReflowLayoutTextStep(parts, x, y, x', y', emojis, m, text, next, next');
    }
  }

  /** Reflowing keeps every child and its size and order; only positions change, so a second reflow changes nothing. */
  lemma {:induction false} ReflowIdempotent(children: seq<Node>, x: real, y: real)
    ensures Reflow(Reflow(children, x, y).nodes, x, y) == Reflow(children, x, y)
    decreases |children|
  {
    if children != [] {
      var w := children[0].width;
      ReflowIdempotent(children[1..], x + w + Padding, y);
      var nodes := Reflow(children, x, y).nodes;
      assert nodes[1..] == Reflow(children[1..], x + w + Padding, y).nodes;
    }
  }

  /** The avatar's x: `width` plus padding from the right edge when right-aligned, padding from the left otherwise. */
  function AvatarX(position: string, screenWidth: real, avatarWidth: real): real {
    if position == "right" then screenWidth - avatarWidth - Padding else Padding
  }

  /** The name label's x: left of the avatar when right-aligned, right of it otherwise. */
  function NameX(position: string, avatarX: real, avatarWidth: real, nameWidth: real): real {
    if position == "right" then avatarX - nameWidth - Padding else avatarX + avatarWidth + Padding
  }

  /** A container's x: shifted so its flow ends `padding` before the right edge when right-aligned, `leftX` otherwise. */
  function ContainerX(position: string, screenWidth: real, flowEnd: real, leftX: real): real {
    if position == "right" then screenWidth - flowEnd - Padding else leftX
  }

  /**
   * The container one message renders to at height `y`: empty for a speaker
   * without an avatar; otherwise avatar, name, then the runs, below the
   * name; a right-aligned container is shifted so that its flow ends
   * `padding` before the screen's right edge.
   */
  function RenderMessage(msg: Message, y: real, avatars: map<string, AvatarData>, emojis: map<string, string>,
                         screenWidth: real, m: Metrics): MessageBox
  {
    if msg.name !in avatars then MessageBox(0.0, y, [])
    else
      var info := avatars[msg.name];
      var ax := AvatarX(info.position, screenWidth, AvatarSize);
      var avatar := Node(Image, info.url, ax, 0.0, AvatarSize, AvatarSize);
      var nw := m.nameWidth(msg.name);
      var nx := NameX(info.position, ax, AvatarSize, nw);
      var nameText := Node(Label, msg.name, nx, 0.0, nw, m.nameHeight(msg.name));
      var f := Layout(Split(msg.text), nx, m.nameHeight(msg.name) + Padding, emojis, m);
      MessageBox(ContainerX(info.position, screenWidth, f.xEnd, 0.0),
                 y, [avatar, nameText] + f.nodes)
  }

  /** The shape of a rendered container: its height, whether it is empty, and where the avatar and the name go. */
  lemma RenderMessageShape(msg: Message, y: real, avatars: map<string, AvatarData>, emojis: map<string, string>,
                           screenWidth: real, m: Metrics)
    ensures RenderMessage(msg, y, avatars, emojis, screenWidth, m).y == y
    ensures msg.name !in avatars <==> RenderMessage(msg, y, avatars, emojis, screenWidth, m).children == []
    ensures msg.name !in avatars ==> RenderMessage(msg, y, avatars, emojis, screenWidth, m).x == 0.0
    ensures msg.name in avatars ==>
              var c := RenderMessage(msg, y, avatars, emojis, screenWidth, m).children;
              |c| >= 2 && c[0].kind == Image && c[0].width == AvatarSize && c[1].kind == Label && c[1].source == msg.name
    ensures msg.name in avatars && avatars[msg.name].position == "right" ==>
              var c := RenderMessage(msg, y, avatars, emojis, screenWidth, m).children;
              c[0].x == screenWidth - AvatarSize - Padding && c[1].x == c[0].x - m.nameWidth(msg.name) - Padding
    ensures msg.name in avatars && avatars[msg.name].position != "right" ==>
              var b := RenderMessage(msg, y, avatars, emojis, screenWidth, m);
              b.x == 0.0 && b.children[0].x == Padding && b.children[1].x == Padding + AvatarSize + Padding
  {
  }

  /** The y of message `k`'s container: `50 + 84k`. */
  function MessageY(k: nat): real {
    FirstMessageY + MessageSpacing * k as real
  }

  /** The containers a dialogue renders to, message `k` at `MessageY(k)`. */
  function RenderAll(msgs: seq<Message>, avatars: map<string, AvatarData>, emojis: map<string, string>,
                     screenWidth: real, m: Metrics): seq<MessageBox>
  {
    seq(|msgs|, k requires 0 <= k < |msgs| => RenderMessage(msgs[k], MessageY(k), avatars, emojis, screenWidth, m))
  }

  /** One container per message, in order, message `k`'s at `MessageY(k)` and empty exactly when its speaker has no avatar. */
  lemma RenderAllShape(msgs: seq<Message>, avatars: map<string, AvatarData>, emojis: map<string, string>,
                       screenWidth: real, m: Metrics)
    ensures |RenderAll(msgs, avatars, emojis, screenWidth, m)| == |msgs|
    ensures forall k :: 0 <= k < |msgs| ==>
              RenderAll(msgs, avatars, emojis, screenWidth, m)[k].y == MessageY(k) &&
              (RenderAll(msgs, avatars, emojis, screenWidth, m)[k].children == [] <==> msgs[k].name !in avatars)
  {
    forall k | 0 <= k < |msgs| {
      RenderMessageShape(msgs[k], MessageY(k), avatars, emojis, screenWidth, m);
    }
  }

  /**
   * The resize relayout of one container: skipped when it has no avatar and
   * name or the speaker is unknown; otherwise avatar and name are placed as
   * in rendering, the runs from index 2 on are reflowed after the name, and
   * a right-aligned container is shifted against the right edge.
   */
  function RelayoutBox(b: MessageBox, avatars: map<string, AvatarData>, screenWidth: real): MessageBox {
    if |b.children| < 2 || b.children[1].kind != Label || b.children[1].source !in avatars then b
    else
      var position := avatars[b.children[1].source].position;
      var avatar := b.children[0];
      var name := b.children[1];
      var ax := AvatarX(position, screenWidth, avatar.width);
      var nx := NameX(position, ax, avatar.width, name.width);
      var f := Reflow(b.children[2..], nx, name.height + Padding);
      MessageBox(ContainerX(position, screenWidth, f.xEnd, b.x),
                 b.y, [avatar.(x := ax), name.(x := nx)] + f.nodes)
  }

  /** A relayout of a rendered container at any width gives what rendering at that width gives. */
  lemma RelayoutRender(msg: Message, y: real, avatars: map<string, AvatarData>, emojis: map<string, string>,
                       screenWidth: real, newWidth: real, m: Metrics)
    ensures RelayoutBox(RenderMessage(msg, y, avatars, emojis, screenWidth, m), avatars, newWidth) ==
            RenderMessage(msg, y, avatars, emojis, newWidth, m)
  {
    if msg.name in avatars {
      var info := avatars[msg.name];
      var right := info.position == "right";
      var parts := Split(msg.text);
      var nw, nh := m.nameWidth(msg.name), m.nameHeight(msg.name);
      var yText := nh + Padding;
      var ax, ax' := AvatarX(info.position, screenWidth, AvatarSize), AvatarX(info.position, newWidth, AvatarSize);
      var nx, nx' := NameX(info.position, ax, AvatarSize, nw), NameX(info.position, ax', AvatarSize, nw);
      var f, f' := Layout(parts, nx, yText, emojis, m), Layout(parts, nx', yText, emojis, m);
      var avatar, nameText := Node(Image, info.url, ax, 0.0, AvatarSize, AvatarSize), Node(Label, msg.name, nx, 0.0, nw, nh);
      var b := RenderMessage(msg, y, avatars, emojis, screenWidth, m);
      assert b == MessageBox(if right then screenWidth - f.xEnd - Padding else 0.0, y, [avatar, nameText] + f.nodes);
      assert b.children[2..] == f.nodes;
      ReflowLayout(parts, nx, yText, nx', yText, emojis, m);
      assert RelayoutBox(b, avatars, newWidth) ==
             MessageBox(if right then newWidth - f'.xEnd - Padding else 0.0, y,
                        [avatar.(x := ax'), nameText.(x := nx')] + f'.nodes);
    }
  }

  /** Rendered containers are either empty or hold at least an avatar and a name, so the relayout never meets a lone child. */
  lemma RenderedBoxShape(msg: Message, y: real, avatars: map<string, AvatarData>, emojis: map<string, string>,
                         screenWidth: real, m: Metrics)
    ensures |RenderMessage(msg, y, avatars, emojis, screenWidth, m).children| != 1
  {
    RenderMessageShape(msg, y, avatars, emojis, screenWidth, m);
  }

  /** The first step of `Layout`: what the first part emits and where the rest starts. */
  lemma LayoutHead(parts: seq<string>, x: real, y: real, emojis: map<string, string>, m: Metrics)
    returns (head: seq<Node>, next: real)
    requires parts != []
    ensures Classify(parts[0], emojis).EmojiPart? ==>
              head == [Node(Image, Classify(parts[0], emojis).url, x, y, EmojiSize, EmojiSize)] && next == x + EmojiSize + Padding
    ensures Classify(parts[0], emojis).Dropped? ==> head == [] && next == x
    ensures Classify(parts[0], emojis).TextPart? ==>
              var text := parts[0];
              head == [Node(Label, text, x, y, m.textWidth(text), m.textHeight(text))] && next == x + m.textWidth(text) + Padding
    ensures Layout(parts, x, y, emojis, m) ==
            Flow(head + Layout(parts[1..], next, y, emojis, m).nodes, Layout(parts[1..], next, y, emojis, m).xEnd)
  {
    match Classify(parts[0], emojis)
    case EmojiPart(url) =>
      head, next := [Node(Image, url, x, y, EmojiSize, EmojiSize)], x + EmojiSize + Padding;
    case Dropped =>
      head, next := [], x;
      assert head + Layout(parts[1..], next, y, emojis, m).nodes == Layout(parts[1..], next, y, emojis, m).nodes;
    case TextPart(text) =>
      var w := m.textWidth(text);
      head, next := [Node(Label, text, x, y, w, m.textHeight(text))], x + w + Padding;
  }

  lemma AppendAssoc<T>(a: seq<T>, b: seq<T>, c: seq<T>)
    ensures a + (b + c) == (a + b) + c
  {
  }

  /** The runs of one message, laid out by the renderer's loop over the parts. */
  method LayoutParts(parts: seq<string>, x0: real, y: real, emojis: map<string, string>, m: Metrics)
    returns (f: Flow)
    ensures f == Layout(parts, x0, y, emojis, m)
  {
    var nodes: seq<Node> := [];
    var xOffset := x0;
    var i := 0;
    ghost var pending := Layout(parts, x0, y, emojis, m);
    while i < |parts|
      invariant 0 <= i <= |parts|
      invariant pending == Layout(parts[i..], xOffset, y, emojis, m)
      invariant Layout(parts, x0, y, emojis, m) == Flow(nodes + pending.nodes, pending.xEnd)
    {
      var part := parts[i];
      ghost var head, next := LayoutHead(parts[i..], xOffset, y, emojis, m);
      assert parts[i..][1..] == parts[i + 1..];
      ghost var rest := Layout(parts[i + 1..], next, y, emojis, m);
      ghost var c := Classify(part, emojis);
      ghost var before := nodes;
      if IsPlaceholder(part) {
        var name := EmojiName(part);
        if KnownEmoji(emojis, name) {
          assert c == EmojiPart(emojis[name]);
          nodes := nodes + [Node(Image, emojis[name], xOffset, y, EmojiSize, EmojiSize)];
          xOffset := xOffset + EmojiSize + Padding;
        } else {
          assert c == Dropped;
        }
      } else {
        assert c == TextPart(part);
        var w := m.textWidth(part);
        nodes := nodes + [Node(Label, part, xOffset, y, w, m.textHeight(part))];
        xOffset := xOffset + w + Padding;
      }
      assert xOffset == next && nodes == before + head;
      AppendAssoc(before, head, rest.nodes);
      assert Layout(parts, x0, y, emojis, m) == Flow(nodes + rest.nodes, rest.xEnd);
      pending := rest;
      i := i + 1;
      assert pending == Layout(parts[i..], xOffset, y, emojis, m);
    }
    f := Flow(nodes, xOffset);
  }

  /** The resize loop over a container's children from the third on. */
  method ReflowChildren(children: seq<Node>, x0: real, y: real) returns (f: Flow)
    ensures f == Reflow(children, x0, y)
  {
    var nodes: seq<Node> := [];
    var xOffset := x0;
    var i := 0;
    ghost var pending := Reflow(children, x0, y);
    assert children[0..] == children;
    while i < |children|
      invariant 0 <= i <= |children|
      invariant pending == Reflow(children[i..], xOffset, y)
      invariant Reflow(children, x0, y) == Flow(nodes + pending.nodes, pending.xEnd)
    {
      var child := children[i];
      var next := xOffset + child.width + Padding;
      ghost var rest := Reflow(children[i + 1..], next, y);
      assert children[i..] == [child] + children[i + 1..];
      ReflowCons(child, children[i + 1..], xOffset, y, next);
      AppendAssoc(nodes, [child.(x := xOffset, y := y)], rest.nodes);
      nodes := nodes + [child.(x := xOffset, y := y)];
      xOffset := next;
      i := i + 1;
      pending := rest;
    }
    f := Flow(nodes, xOffset);
  }

  class MagicWordsScreen {
    /** Speaker name to avatar url and alignment; kept across activations. */
    var avatarMap: map<string, AvatarData>
    /** The dialogue container's children, one container per message. */
    var boxes: seq<MessageBox>
    /** The dialogue container's position. */
    var containerX: real
    var containerY: real

    constructor ()
      ensures avatarMap == map[] && boxes == [] && containerX == 0.0 && containerY == 0.0
    {
      avatarMap := map[];
      boxes := [];
      containerX, containerY := 0.0, 0.0;
    }

    /** One message container, built as the renderer builds it. */
    method RenderMessageBox(msg: Message, y: real, emojis: map<string, string>, screenWidth: real, m: Metrics)
      returns (b: MessageBox)
      ensures b == RenderMessage(msg, y, avatarMap, emojis, screenWidth, m)
    {
      if msg.name !in avatarMap {
        return MessageBox(0.0, y, []);
      }
      var info := avatarMap[msg.name];
      var ax := AvatarX(info.position, screenWidth, AvatarSize);
      var avatar := Node(Image, info.url, ax, 0.0, AvatarSize, AvatarSize);
      var nw := m.nameWidth(msg.name);
      var nx := NameX(info.position, ax, AvatarSize, nw);
      var nameText := Node(Label, msg.name, nx, 0.0, nw, m.nameHeight(msg.name));
      var f := LayoutParts(Split(msg.text), nx, m.nameHeight(msg.name) + Padding, emojis, m);
      var x := ContainerX(info.position, screenWidth, f.xEnd, 0.0);
      b := MessageBox(x, y, [avatar, nameText] + f.nodes);
    }

    /**
     * Renders a dialogue: the speakers are added to the kept speaker map,
     * the emojis to a fresh map (last entry wins in both), and one
     * container per message is appended, message `k` at `y = 50 + 84k`.
     */
    method RenderDialogue(data: Dialogue, screenWidth: real, m: Metrics)
      modifies this`avatarMap, this`boxes
      ensures avatarMap == old(avatarMap) + MapOf(AvatarPairs(data.avatars))
      ensures boxes == old(boxes) + RenderAll(data.dialogue, avatarMap, MapOf(EmojiPairs(data.emojies)), screenWidth, m)
    {
      avatarMap := FillMap(avatarMap, AvatarPairs(data.avatars));
      var emojiMap := FillMap(map[], EmojiPairs(data.emojies));
      EmptyMerge(MapOf(EmojiPairs(data.emojies)));
      ghost var avatars := avatarMap;
      ghost var all := RenderAll(data.dialogue, avatars, emojiMap, screenWidth, m);
      var yOffset := FirstMessageY;
      var k := 0;
      while k < |data.dialogue|
        invariant 0 <= k <= |data.dialogue|
        invariant yOffset == MessageY(k)
        invariant boxes == old(boxes) + all[..k]
        invariant avatarMap == avatars
      {
        var b := RenderMessageBox(data.dialogue[k], yOffset, emojiMap, screenWidth, m);
        assert b == all[k];
        boxes := boxes + [b];
        assert all[..k + 1] == all[..k] + [b];
        yOffset := yOffset + AvatarSize + Padding * 2.0;
        k := k + 1;
      }
      assert all[..k] == all;
    }

    /** One container relaid out by the resize loop. */
    method RelayoutMessageBox(b: MessageBox, screenWidth: real) returns (r: MessageBox)
      ensures r == RelayoutBox(b, avatarMap, screenWidth)
    {
      if |b.children| < 2 || b.children[1].kind != Label || b.children[1].source !in avatarMap {
        return b;
      }
      var position := avatarMap[b.children[1].source].position;
      var avatar := b.children[0];
      var name := b.children[1];
      var ax := AvatarX(position, screenWidth, avatar.width);
      var nx := NameX(position, ax, avatar.width, name.width);
      var f := ReflowChildren(b.children[2..], nx, name.height + Padding);
      var x := ContainerX(position, screenWidth, f.xEnd, b.x);
      r := MessageBox(x, b.y, [avatar.(x := ax), name.(x := nx)] + f.nodes);
    }

    /**
     * The resize hook: the dialogue container moves to (50, 50) and every
     * message container is relaid out at the new width; none is added,
     * removed or reordered.
     */
    method OnResize(screenWidth: real)
      modifies this`boxes, this`containerX, this`containerY
      ensures containerX == 50.0 && containerY == 50.0
      ensures |boxes| == |old(boxes)|
      ensures forall i :: 0 <= i < |boxes| ==> boxes[i] == RelayoutBox(old(boxes)[i], avatarMap, screenWidth)
    {
      containerX, containerY := 50.0, 50.0;
      var i := 0;
      while i < |boxes|
        invariant 0 <= i <= |boxes| == |old(boxes)|
        invariant forall j :: 0 <= j < i ==> boxes[j] == RelayoutBox(old(boxes)[j], avatarMap, screenWidth)
        invariant forall j :: i <= j < |boxes| ==> boxes[j] == old(boxes)[j]
        invariant containerX == 50.0 && containerY == 50.0
      {
        var r := RelayoutMessageBox(boxes[i], screenWidth);
        boxes := boxes[i := r];
        i := i + 1;
      }
    }
  }
}
