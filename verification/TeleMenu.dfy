/**
 The remote-control client: a tree of actions from which it generates a menu of buttons, and a
 flat map from labels to callbacks that routes the commands of those buttons.
 */
module TeleMenu {
  import opened Wrappers

  // ------------------------------------------------------------------ actions and buttons

  /** Callbacks are told apart by their identity. */
  type Callback = nat

  datatype Action = Action(title: string, subMenu: seq<Action>, inputPrompt: string, callback: Option<Callback>)

  type Handlers = map<string, Callback>

  const COMMAND_TYPE := 99

  datatype Row = Row(buttons: seq<Button>)

  datatype Menu = NoMenu | Menu(rows: seq<Row>)

  datatype Button = Button(title: string, cmdType: Option<int>, payload: Option<string>,
                           inputPrompt: string, menu: Menu)

  function ConvertActionToBtn(a: Action): Button {
    if |a.subMenu| > 0 || a.callback.None? then
      Button(a.title, None, None, a.inputPrompt, Menu(ConvertAll(a.subMenu)))
    else
      Button(a.title, Some(COMMAND_TYPE), Some(a.title), a.inputPrompt, NoMenu)
  }

  /** One row with one button for every action. */
  function ConvertAll(actions: seq<Action>): seq<Row> {
    if actions == [] then []
    else [Row([ConvertActionToBtn(actions[0])])] + ConvertAll(actions[1..])
  }

  // ------------------------------------------------------------------ the tree in preorder

  function Preorder(a: Action): (nodes: seq<Action>)
    decreases a
  {
    [a] + PreorderAll(a.subMenu)
  }

  function PreorderAll(forest: seq<Action>): (nodes: seq<Action>)
    decreases forest
  {
    if forest == [] then [] else Preorder(forest[0]) + PreorderAll(forest[1..])
  }

  lemma {:induction false} PreorderAppend(front: seq<Action>, back: seq<Action>)
    ensures PreorderAll(front + back) == PreorderAll(front) + PreorderAll(back)
  {
    if front == [] {
      assert front + back == back;
    } else {
      assert (front + back)[1..] == front[1..] + back;
      PreorderAppend(front[1..], back);
    }
  }

  lemma PreorderSnoc(front: seq<Action>, a: Action)
    ensures PreorderAll(front + [a]) == PreorderAll(front) + Preorder(a)
  {
    PreorderAppend(front, [a]);
    assert PreorderAll([a]) == Preorder(a) + [];
  }

  /** The handlers after the callbacks of the nodes have been stored one after the other. */
  function Stored(handlers: Handlers, nodes: seq<Action>): Handlers
    decreases |nodes|
  {
    if nodes == [] then handlers
    else
      var before := Stored(handlers, nodes[..|nodes| - 1]);
      var last := nodes[|nodes| - 1];
      if last.callback.Some? then before[last.title := last.callback.value] else before
  }

  lemma {:induction false} StoredAppend(handlers: Handlers, front: seq<Action>, back: seq<Action>)
    ensures Stored(handlers, front + back) == Stored(Stored(handlers, front), back)
    decreases |back|
  {
    var all := front + back;
    if back == [] {
      assert all == front;
    } else {
      assert all[..|all| - 1] == front + back[..|back| - 1];
      StoredAppend(handlers, front, back[..|back| - 1]);
    }
  }

  // ------------------------------------------------------------------ the client

  class TeleClient {
    var actions: seq<Action>
    var handlers: Handlers

    /** The routing map is determined by the forest. */
    ghost predicate Valid()
      reads this
    {
      handlers == Stored(map[], PreorderAll(actions))
    }

    constructor ()
      ensures Valid() && actions == []
    {
      actions, handlers := [], map[];
    }

    method RegisterHandlersRecursive(a: Action)
      modifies this`handlers
      ensures handlers == Stored(old(handlers), Preorder(a))
      decreases a
    {
      if a.callback.Some? {
        handlers := handlers[a.title := a.callback.value];
      }
      assert handlers == Stored(old(handlers), [a]);
      for i := 0 to |a.subMenu|
        invariant handlers == Stored(old(handlers), [a] + PreorderAll(a.subMenu[..i]))
      {
        ghost var done := [a] + PreorderAll(a.subMenu[..i]);
        assert a.subMenu[..i + 1] == a.subMenu[..i] + [a.subMenu[i]];
        PreorderSnoc(a.subMenu[..i], a.subMenu[i]);
        StoredAppend(old(handlers), done, Preorder(a.subMenu[i]));
        assert done + Preorder(a.subMenu[i]) == [a] + PreorderAll(a.subMenu[..i + 1]);
        RegisterHandlersRecursive(a.subMenu[i]);
      }
      assert a.subMenu[..|a.subMenu|] == a.subMenu;
    }

    /** Adding to a client leaves it as if all its actions had been given at once. */
    method AddAction(a: Action)
      requires Valid()
      modifies this
      ensures Valid() && actions == old(actions) + [a]
      ensures handlers == Stored(old(handlers), Preorder(a))
    {
      actions := actions + [a];
      RegisterHandlersRecursive(a);
      PreorderSnoc(old(actions), a);
      StoredAppend(map[], PreorderAll(old(actions)), Preorder(a));
    }

    method UpdateActions(newActions: seq<Action>)
      modifies this
      ensures Valid() && actions == newActions
    {
      actions := newActions;
      handlers := map[];
      for i := 0 to |newActions|
        invariant actions == newActions && handlers == Stored(map[], PreorderAll(newActions[..i]))
      {
        assert newActions[..i + 1] == newActions[..i] + [newActions[i]];
        PreorderSnoc(newActions[..i], newActions[i]);
        StoredAppend(map[], PreorderAll(newActions[..i]), Preorder(newActions[i]));
        RegisterHandlersRecursive(newActions[i]);
      }
      assert newActions[..|newActions|] == newActions;
    }

    method GenerateMenu() returns (rows: seq<Row>)
      ensures rows == ConvertAll(actions)
    {
      rows := [];
      assert actions[0..] == actions;
      for i := 0 to |actions|
        invariant rows + ConvertAll(actions[i..]) == ConvertAll(actions)
      {
        assert actions[i..][1..] == actions[i + 1..];
        rows := rows + [Row([ConvertActionToBtn(actions[i])])];
      }
    }

    /** The dispatcher's lookup: the callback that a command runs, if any. */
    method Route(payload: string) returns (callback: Option<Callback>)
      requires Valid()
      ensures callback.Some? <==> Registered(PreorderAll(actions), payload)
      ensures callback.Some? ==> IsLastCallback(PreorderAll(actions), payload, callback.value)
    {
      StoredIsLastWins(PreorderAll(actions), payload);
      callback := if payload in handlers then Some(handlers[payload]) else None;
    }
  }

  // ------------------------------------------------------------------ the shape of the menu

  /**
   The menu of a forest has one row with a single button for each action, in order. A leaf with a
   callback sends its label as a command of type 99; every other action opens the menu of its
   sub-actions, which is empty for a leaf.
   */
  lemma {:induction false} MenuShape(forest: seq<Action>, i: nat)
    requires i < |forest|
    ensures var rows, a := ConvertAll(forest), forest[i];
            && |rows| == |forest| && |rows[i].buttons| == 1
            && var button := rows[i].buttons[0];
            && button.title == a.title && button.inputPrompt == a.inputPrompt
            && (a.subMenu == [] && a.callback.Some? ==>
                  button.cmdType == Some(99) && button.payload == Some(a.title) && button.menu == NoMenu)
            && (a.subMenu != [] || a.callback.None? ==>
                  button.cmdType == None && button.payload == None && button.menu == Menu(ConvertAll(a.subMenu)))
  {
    RowsAreActions(forest);
    if i > 0 { MenuShape(forest[1..], i - 1); }
  }

  lemma {:induction false} RowsAreActions(forest: seq<Action>)
    ensures |ConvertAll(forest)| == |forest|
  {
    if forest != [] { RowsAreActions(forest[1..]); }
  }

  // ------------------------------------------------------------------ which callback a label has

  predicate Carries(node: Action, title: string) {
    node.title == title && node.callback.Some?
  }

  ghost predicate Registered(nodes: seq<Action>, title: string) {
    exists i :: 0 <= i < |nodes| && Carries(nodes[i], title)
  }

  /** Node `i` is the last one in preorder that stores a callback under the label. */
  ghost predicate IsLast(nodes: seq<Action>, title: string, i: int) {
    && 0 <= i < |nodes| && Carries(nodes[i], title)
    && forall j :: i < j < |nodes| ==> !Carries(nodes[j], title)
  }

  ghost predicate IsLastCallback(nodes: seq<Action>, title: string, callback: Callback) {
    exists i :: IsLast(nodes, title, i) && nodes[i].callback == Some(callback)
  }

  /** The routing map holds a label exactly if some node carries it, and then the callback of the last such node. */
  lemma {:induction false} StoredIsLastWins(nodes: seq<Action>, title: string)
    ensures title in Stored(map[], nodes) <==> Registered(nodes, title)
    ensures title in Stored(map[], nodes) ==> IsLastCallback(nodes, title, Stored(map[], nodes)[title])
    decreases |nodes|
  {
    if nodes != [] {
      var n := |nodes| - 1;
      var before := nodes[..n];
      StoredIsLastWins(before, title);
      assert forall i :: 0 <= i < n ==> before[i] == nodes[i];
      if Carries(nodes[n], title) {
        assert IsLast(nodes, title, n);
      } else if title in Stored(map[], before) {
        var i :| IsLast(before, title, i) && before[i].callback == Some(Stored(map[], before)[title]);
        assert IsLast(nodes, title, i);
      }
    }
  }

  // ------------------------------------------------------------------ the commands of a menu

  /** The payloads of the command buttons, in the order of the menu. */
  function Commands(rows: seq<Row>): seq<string> {
    if rows == [] then [] else CommandsOfButtons(rows[0].buttons) + Commands(rows[1..])
  }

  function CommandsOfButtons(buttons: seq<Button>): seq<string> {
    if buttons == [] then [] else CommandsOf(buttons[0]) + CommandsOfButtons(buttons[1..])
  }

  function CommandsOf(b: Button): seq<string> {
    (if b.payload.Some? then [b.payload.value] else []) + (if b.menu.Menu? then Commands(b.menu.rows) else [])
  }

  predicate IsLeaf(node: Action) {
    node.subMenu == [] && node.callback.Some?
  }

  function LeafLabels(nodes: seq<Action>): seq<string> {
    if nodes == [] then []
    else (if IsLeaf(nodes[0]) then [nodes[0].title] else []) + LeafLabels(nodes[1..])
  }

  lemma {:induction false} LeafLabelsAppend(front: seq<Action>, back: seq<Action>)
    ensures LeafLabels(front + back) == LeafLabels(front) + LeafLabels(back)
  {
    if front == [] {
      assert front + back == back;
    } else {
      assert (front + back)[1..] == front[1..] + back;
      LeafLabelsAppend(front[1..], back);
    }
  }

  lemma {:induction false} LeafLabelsAre(nodes: seq<Action>, title: string)
    ensures title in LeafLabels(nodes) <==> exists i :: 0 <= i < |nodes| && IsLeaf(nodes[i]) && nodes[i].title == title
  {
    if nodes != [] {
      LeafLabelsAre(nodes[1..], title);
      assert forall i :: 0 <= i < |nodes| - 1 ==> nodes[1..][i] == nodes[i + 1];
      assert forall i :: 0 < i < |nodes| ==> nodes[i] == nodes[1..][i - 1];
      if i :| 0 <= i < |nodes| && IsLeaf(nodes[i]) && nodes[i].title == title {
        assert i > 0 ==> IsLeaf(nodes[1..][i - 1]);
      }
    }
  }

  /** The menu's commands, in order, are the labels of the leaves of the forest in preorder. */
  lemma {:induction false} MenuCommands(forest: seq<Action>)
    ensures Commands(ConvertAll(forest)) == LeafLabels(PreorderAll(forest))
    decreases forest
  {
    if forest != [] {
      var a, rest := forest[0], forest[1..];
      ButtonCommands(a);
      MenuCommands(rest);
      LeafLabelsAppend(Preorder(a), PreorderAll(rest));
      OneButton(ConvertActionToBtn(a));
      assert ConvertAll(forest)[1..] == ConvertAll(rest);
    }
  }

  lemma OneButton(b: Button)
    ensures CommandsOfButtons([b]) == CommandsOf(b)
  {
    assert [b][1..] == [];
    assert CommandsOf(b) + [] == CommandsOf(b);
  }

  lemma {:induction false} ButtonCommands(a: Action)
    ensures CommandsOf(ConvertActionToBtn(a)) == LeafLabels(Preorder(a))
    decreases a
  {
    assert Preorder(a)[1..] == PreorderAll(a.subMenu);
    MenuCommands(a.subMenu);
  }

  /** What the user reads: label and input prompt of every button, top down. */
  function Captions(rows: seq<Row>): seq<(string, string)> {
    if rows == [] then [] else CaptionsOfButtons(rows[0].buttons) + Captions(rows[1..])
  }

  function CaptionsOfButtons(buttons: seq<Button>): seq<(string, string)> {
    if buttons == [] then [] else CaptionsOf(buttons[0]) + CaptionsOfButtons(buttons[1..])
  }

  function CaptionsOf(b: Button): seq<(string, string)> {
    [(b.title, b.inputPrompt)] + (if b.menu.Menu? then Captions(b.menu.rows) else [])
  }

  function NodeCaptions(nodes: seq<Action>): (captions: seq<(string, string)>)
    ensures |captions| == |nodes|
    ensures forall i :: 0 <= i < |nodes| ==> captions[i] == (nodes[i].title, nodes[i].inputPrompt)
  {
    seq(|nodes|, i requires 0 <= i < |nodes| => (nodes[i].title, nodes[i].inputPrompt))
  }

  /** The menu shows every action of the forest, in preorder, and nothing else. */
  lemma {:induction false} MenuCaptions(forest: seq<Action>)
    ensures Captions(ConvertAll(forest)) == NodeCaptions(PreorderAll(forest))
    decreases forest
  {
    if forest != [] {
      var a, rest := forest[0], forest[1..];
      ButtonCaptions(a);
      MenuCaptions(rest);
      assert NodeCaptions(PreorderAll(forest)) == NodeCaptions(Preorder(a)) + NodeCaptions(PreorderAll(rest));
      OneCaption(ConvertActionToBtn(a));
      assert ConvertAll(forest)[1..] == ConvertAll(rest);
    }
  }

  lemma OneCaption(b: Button)
    ensures CaptionsOfButtons([b]) == CaptionsOf(b)
  {
    assert [b][1..] == [];
    assert CaptionsOf(b) + [] == CaptionsOf(b);
  }

  lemma {:induction false} ButtonCaptions(a: Action)
    ensures CaptionsOf(ConvertActionToBtn(a)) == NodeCaptions(Preorder(a))
    decreases a
  {
    MenuCaptions(a.subMenu);
    assert NodeCaptions(Preorder(a)) == [(a.title, a.inputPrompt)] + NodeCaptions(PreorderAll(a.subMenu));
  }

  // ------------------------------------------------------------------ menu against map

  /** Every command at any depth of the generated menu is routed. */
  lemma EveryCommandIsRouted(forest: seq<Action>, payload: string)
    requires payload in Commands(ConvertAll(forest))
    ensures payload in Stored(map[], PreorderAll(forest))
  {
    var nodes := PreorderAll(forest);
    MenuCommands(forest);
    LeafLabelsAre(nodes, payload);
    StoredIsLastWins(nodes, payload);
    var i :| 0 <= i < |nodes| && IsLeaf(nodes[i]) && nodes[i].title == payload;
    assert Carries(nodes[i], payload);
  }

  /**
   A routed label has no button exactly if only nodes with sub-menus carry it: their callback is
   registered, but the menu shows them as folders.
   */
  lemma RoutedWithoutButtonIff(forest: seq<Action>, title: string)
    requires title in Stored(map[], PreorderAll(forest))
    ensures title !in Commands(ConvertAll(forest))
       <==> forall node <- PreorderAll(forest) :: Carries(node, title) ==> node.subMenu != []
  {
    var nodes := PreorderAll(forest);
    MenuCommands(forest);
    LeafLabelsAre(nodes, title);
    assert forall i :: 0 <= i < |nodes| ==> nodes[i] in nodes;
  }

  /** Pressing a leaf's button runs the leaf's own callback. */
  ghost predicate RunsItsOwn(nodes: seq<Action>, i: int)
    requires 0 <= i < |nodes| && IsLeaf(nodes[i])
  {
    var handlers := Stored(map[], nodes);
    nodes[i].title in handlers && handlers[nodes[i].title] == nodes[i].callback.value
  }

  /** No leaf is followed, as the last bearer of its label, by a node with another callback. */
  ghost predicate NoLeafIsShadowed(nodes: seq<Action>) {
    forall i, j :: 0 <= i < j < |nodes| && IsLast(nodes, nodes[j].title, j)
                   && IsLeaf(nodes[i]) && nodes[i].title == nodes[j].title
      ==> nodes[i].callback == nodes[j].callback
  }

  /** Labels are the routing keys: all buttons run their own callbacks exactly if no leaf is shadowed. */
  lemma EveryButtonRunsItsOwnIff(nodes: seq<Action>)
    ensures (forall i :: 0 <= i < |nodes| && IsLeaf(nodes[i]) ==> RunsItsOwn(nodes, i)) <==> NoLeafIsShadowed(nodes)
  {
    var handlers := Stored(map[], nodes);
    forall i | 0 <= i < |nodes| && IsLeaf(nodes[i])
      ensures NoLeafIsShadowed(nodes) ==> RunsItsOwn(nodes, i)
    {
      var title := nodes[i].title;
      StoredIsLastWins(nodes, title);
      assert Carries(nodes[i], title);
      var j :| IsLast(nodes, title, j) && nodes[j].callback == Some(handlers[title]);
      assert i <= j;
    }
    forall i, j | 0 <= i < j < |nodes| && IsLast(nodes, nodes[j].title, j)
                   && IsLeaf(nodes[i]) && nodes[i].title == nodes[j].title
      ensures RunsItsOwn(nodes, i) ==> nodes[i].callback == nodes[j].callback
    {
      StoredIsLastWins(nodes, nodes[i].title);
    }
  }

  /** In particular when no two nodes share a label. */
  lemma UniqueLabelsRunTheirOwn(nodes: seq<Action>)
    requires forall i, j :: 0 <= i < j < |nodes| ==> nodes[i].title != nodes[j].title
    ensures forall i :: 0 <= i < |nodes| && IsLeaf(nodes[i]) ==> RunsItsOwn(nodes, i)
  {
    EveryButtonRunsItsOwnIff(nodes);
  }
}
