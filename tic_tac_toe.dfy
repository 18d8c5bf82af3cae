/** The two-player tic-tac-toe of src/components/games/TicTacToe.jsx: a board of
    nine cells, X moves first, `user1` of the couple plays X, moves and resets
    are mirrored to the partner through the shared socket service. */
module TicTacToe {
  import opened Base
  import opened Socket

  datatype Mark = X | O

  /** A cell is empty (`null`) or holds a mark. */
  type Cell = Option<Mark>

  /** Boards received from the partner are taken as they come, so any length is possible. */
  type Board = seq<Cell>

  /** The text the source stores for a mark. */
  function MarkText(m: Mark): string {
    match m
    case X => "X"
    case O => "O"
  }

  /** Payloads the game hands to the socket service. */
  datatype GameMessage =
    | Room(id: string)
    | Move(room: string, board: Board, isXNext: bool)
    | Reset(room: string)

  /** The events the partner's moves and resets arrive on. */
  const ReceiveMoveEvent := "receive_move"
  const ReceiveResetEvent := "receive_reset"

  /** Ids of the game's two listeners. */
  const MoveHandler: nat := 0
  const ResetHandler: nat := 1

  /** `Array(9).fill(null)`. */
  function EmptyBoard(): (b: Board)
    ensures |b| == 9 && forall i :: 0 <= i < 9 ==> b[i] == None
  {
    [None, None, None, None, None, None, None, None, None]
  }

  /** A line is three cell indices. */
  datatype Line = Line(a: nat, b: nat, c: nat)

  /** The eight lines in the order they are scanned: rows, columns, diagonals. */
  const Lines: seq<Line> := [
    Line(0, 1, 2), Line(3, 4, 5), Line(6, 7, 8),
    Line(0, 3, 6), Line(1, 4, 7), Line(2, 5, 8),
    Line(0, 4, 8), Line(2, 4, 6)
  ]

  /** `squares[i]`: reading past the end yields `undefined`, which is falsy like an empty cell. */
  function At(b: Board, i: nat): Cell {
    if i < |b| then b[i] else None
  }

  /** `squares[a] && squares[a] === squares[b] && squares[a] === squares[c]`. */
  predicate LineWon(b: Board, l: Line) {
    At(b, l.a).Some? && At(b, l.a) == At(b, l.b) && At(b, l.a) == At(b, l.c)
  }

  /** The mark of the first winning line at index `k` or later, scanning in order. */
  function WinnerFrom(b: Board, k: nat): Option<Mark>
    decreases |Lines| - k
  {
    if k >= |Lines| then None
    else if LineWon(b, Lines[k]) then At(b, Lines[k].a)
    else WinnerFrom(b, k + 1)
  }

  /** The mark `calculateWinner` returns: that of the first completed line. */
  function Winner(b: Board): Option<Mark> {
    WinnerFrom(b, 0)
  }

  /** `calculateWinner(squares)`: scans the lines in order and returns the first hit. */
  method CalculateWinner(squares: Board) returns (w: Option<Mark>)
    ensures w == Winner(squares)
  {
    var i := 0;
    while i < |Lines|
      invariant 0 <= i <= |Lines|
      invariant WinnerFrom(squares, i) == Winner(squares)
    {
      var l := Lines[i];
      if At(squares, l.a).Some? && At(squares, l.a) == At(squares, l.b) && At(squares, l.a) == At(squares, l.c) {
        return At(squares, l.a);
      }
      i := i + 1;
    }
    return None;
  }

  /** The scan result from `k` on is a completed line's mark, and no earlier line from `k` is complete. */
  lemma {:induction false} WinnerFromSound(b: Board, k: nat, m: Mark)
    requires WinnerFrom(b, k) == Some(m)
    ensures exists j :: k <= j < |Lines| && LineWon(b, Lines[j]) && At(b, Lines[j].a) == Some(m)
                        && forall i :: k <= i < j ==> !LineWon(b, Lines[i])
    decreases |Lines| - k
  {
    if !LineWon(b, Lines[k]) {
      WinnerFromSound(b, k + 1, m);
      var j :| k + 1 <= j < |Lines| && LineWon(b, Lines[j]) && At(b, Lines[j].a) == Some(m)
               && forall i :: k + 1 <= i < j ==> !LineWon(b, Lines[i]);
      assert forall i :: k <= i < j ==> !LineWon(b, Lines[i]);
    }
  }

  /** The scan finds nothing from `k` on exactly when no line from `k` on is complete. */
  lemma {:induction false} WinnerFromNone(b: Board, k: nat)
    ensures WinnerFrom(b, k) == None <==> forall j :: k <= j < |Lines| ==> !LineWon(b, Lines[j])
    decreases |Lines| - k
  {
    if k < |Lines| {
      WinnerFromNone(b, k + 1);
    }
  }

  /** `calculateWinner` returns a mark only for a board where some line holds three
      copies of it, and it is the first such line in scan order. */
  lemma WinnerSound(b: Board, m: Mark)
    requires Winner(b) == Some(m)
    ensures exists j :: 0 <= j < |Lines| && LineWon(b, Lines[j]) && At(b, Lines[j].a) == Some(m)
                        && forall i :: 0 <= i < j ==> !LineWon(b, Lines[i])
  {
    WinnerFromSound(b, 0, m);
  }

  /** `calculateWinner` returns null exactly when no line is complete, a full board included:
      there is no separate draw result. */
  lemma WinnerNoneIffNoLine(b: Board)
    ensures Winner(b) == None <==> forall j :: 0 <= j < |Lines| ==> !LineWon(b, Lines[j])
  {
    WinnerFromNone(b, 0);
  }

  /** A user reference of the couple: a populated document or a raw id. */
  datatype UserRef = Doc(docId: Option<string>) | RawId(raw: string)

  /** `couple.user1?._id || couple.user1`: the document's id, or the raw id string.
      A document without an id resolves to the document itself, which equals no user id. */
  function ResolveId(u: UserRef): Option<string> {
    match u
    case Doc(id) => if Truthy(id) then id else None
    case RawId(raw) => Some(raw)
  }

  /** The couple the game is rendered for: its id and its two members, either of which
      may be missing. */
  datatype CoupleRef = CoupleRef(id: string, user1: Option<UserRef>, user2: Option<UserRef>)

  /** Whether `couple.userN` is truthy: a document always is, a raw id when non-empty. */
  predicate Present(u: Option<UserRef>) {
    u.Some? && !(u.value.RawId? && u.value.raw == "")
  }

  /** What the component renders: the "Loading game..." placeholder, or the game for
      the couple's room with its first member. */
  datatype Screen = LoadingGame | Playing(room: string, user1: UserRef)

  /** The render guard: without a couple or with either member missing only the
      placeholder is shown, and no role, listener or handler exists. */
  function GameScreen(couple: Option<CoupleRef>): (r: Screen)
    ensures r.LoadingGame? <==> couple.None? || !Present(couple.value.user1) || !Present(couple.value.user2)
    ensures r.Playing? ==> r.room == couple.value.id && couple.value.user1 == Some(r.user1)
  {
    if couple.None? || !Present(couple.value.user1) || !Present(couple.value.user2) then LoadingGame
    else Playing(couple.value.id, couple.value.user1.value)
  }

  /** `user._id === user1Id ? 'X' : 'O'`. */
  function RoleOf(me: string, user1: UserRef): (r: Mark)
    ensures r == X <==> ResolveId(user1) == Some(me)
  {
    if ResolveId(user1) == Some(me) then X else O
  }

  /** The mark of the player to move. */
  function NextMark(isXNext: bool): Mark {
    if isXNext then X else O
  }

  /** `(isXNext && myRole === 'X') || (!isXNext && myRole === 'O')`. */
  function IsMyTurn(isXNext: bool, role: Mark): (r: bool)
    ensures r <==> role == NextMark(isXNext)
  {
    (isXNext && role == X) || (!isXNext && role == O)
  }

  /** With two different users, `user1` plays X, the other plays O, and at every turn
      exactly one of them may move. */
  lemma TwoPlayersAlternate(u1: string, u2: string, user1: UserRef, isXNext: bool)
    requires ResolveId(user1) == Some(u1) && u1 != u2
    ensures RoleOf(u1, user1) == X && RoleOf(u2, user1) == O
    ensures IsMyTurn(isXNext, RoleOf(u1, user1)) != IsMyTurn(isXNext, RoleOf(u2, user1))
  {
  }

  const WonMessage := "\U{1F389} You Won!"
  const DrawMessage := "\U{1F91D} It's a Draw!"
  const LostMessage := "\U{1F614} You Lost!"
  const YourTurnMessage := "\U{1F7E2} Your Turn"

  /** `getStatusMessage()`. The draw test compares the winner with 'Draw', which no mark equals. */
  function StatusMessage(winner: Option<Mark>, role: Mark, myTurn: bool): string {
    if winner.Some? then
      if winner.value == role then WonMessage
      else if MarkText(winner.value) == "Draw" then DrawMessage
      else LostMessage
    else if myTurn then YourTurnMessage
    else WaitingMessage(Opponent(role))
  }

  /** The other player's mark. */
  function Opponent(m: Mark): (r: Mark)
    ensures r != m
  {
    if m == X then O else X
  }

  /** The text shown while the player with mark `m` is to move. */
  function WaitingMessage(m: Mark): string {
    "\U{1F534} Waiting for " + MarkText(m) + "..."
  }

  /** Without a winner the message is "Your Turn" exactly on my turn; otherwise it waits
      for the other mark, which is the mark to move. */
  lemma NoWinnerStatus(role: Mark, isXNext: bool)
    ensures StatusMessage(None, role, IsMyTurn(isXNext, role)) == YourTurnMessage <==> IsMyTurn(isXNext, role)
    ensures !IsMyTurn(isXNext, role) ==>
              StatusMessage(None, role, false) == WaitingMessage(NextMark(isXNext))
              && NextMark(isXNext) != role
  {
    if !IsMyTurn(isXNext, role) {
      assert WaitingMessage(Opponent(role))[0] == '\U{1F534}' != YourTurnMessage[0];
    }
  }

  /** The draw message is never shown: the winner is always null, 'X' or 'O'. */
  lemma DrawNeverShown(winner: Option<Mark>, role: Mark, myTurn: bool)
    ensures StatusMessage(winner, role, myTurn) != DrawMessage
    ensures winner.Some? ==> StatusMessage(winner, role, myTurn) == if winner.value == role then WonMessage else LostMessage
  {
    if winner.Some? {
      assert MarkText(winner.value) != "Draw" by {
        assert |MarkText(winner.value)| == 1;
      }
    } else if !myTurn {
      var s := StatusMessage(winner, role, myTurn);
      assert s[0] == '\U{1F534}' && DrawMessage[0] == '\U{1F91D}';
    }
  }

  /** `handleClick` returns at once on an occupied cell, after a win, or off turn. */
  predicate ClickIgnored(board: Board, winner: Option<Mark>, isXNext: bool, role: Mark, index: nat)
    requires index < |board|
  {
    board[index].Some? || winner.Some? || !IsMyTurn(isXNext, role)
  }

  /** One player's game component. */
  class Game {
    const room: string
    const role: Mark
    var board: Board
    var isXNext: bool
    var winner: Option<Mark>

    /** Mounting for the current user `me` once `GameScreen` is `Playing(room, user1)`:
        an empty board, X to move, no winner. */
    constructor (room: string, me: string, user1: UserRef)
      ensures this.room == room && role == RoleOf(me, user1)
      ensures board == EmptyBoard() && isXNext && winner == None
    {
      this.room := room;
      role := RoleOf(me, user1);
      board := EmptyBoard();
      isXNext := true;
      winner := None;
    }

    /** The mount effect: `connect()`, join the couple's room, and register the
        'receive_move' and 'receive_reset' listeners on the socket `connect()` returned. */
    method Subscribe(svc: SocketService<GameMessage>) returns (s: Sock)
      requires svc.Valid()
      modifies svc
      ensures svc.Valid() && svc.socket == Some(s)
      ensures svc.emitted == old(svc.emitted) + [Emission(s, JoinRoomEvent, Room(room))]
      ensures svc.listeners == old(svc.listeners) + [Listener(s, ReceiveMoveEvent, MoveHandler),
                                                     Listener(s, ReceiveResetEvent, ResetHandler)]
      ensures svc.closed == old(svc.closed)
    {
      s := svc.Connect();
      svc.JoinRoom(Room(room));
      svc.On(ReceiveMoveEvent, MoveHandler);
      svc.On(ReceiveResetEvent, ResetHandler);
    }

    /** The effect's cleanup: `socket.off` for both events, on the socket the effect
        captured, whether or not the service still holds it. */
    method CleanUp(svc: SocketService<GameMessage>, s: Sock)
      requires svc.Valid()
      modifies svc
      ensures svc.Valid()
      ensures svc.listeners == KeepOthers(KeepOthers(old(svc.listeners), s, ReceiveMoveEvent), s, ReceiveResetEvent)
      ensures svc.socket == old(svc.socket) && svc.created == old(svc.created)
      ensures svc.emitted == old(svc.emitted) && svc.closed == old(svc.closed)
    {
      svc.listeners := KeepOthers(KeepOthers(svc.listeners, s, ReceiveMoveEvent), s, ReceiveResetEvent);
    }

    /** `handleClick(index)` on one of the rendered cells. */
    method HandleClick(index: nat, svc: SocketService<GameMessage>)
      requires index < |board|
      requires svc.Valid()
      modifies this, svc
      ensures svc.Valid()
      ensures ClickIgnored(old(board), old(winner), old(isXNext), role, index) ==>
                board == old(board) && isXNext == old(isXNext) && winner == old(winner)
                && svc.emitted == old(svc.emitted)
      ensures !ClickIgnored(old(board), old(winner), old(isXNext), role, index) ==>
                && board == old(board)[index := Some(role)]
                && isXNext == !old(isXNext)
                && winner == Winner(board)
                && svc.emitted == old(svc.emitted) + EmitsOn(old(svc.socket), SendMoveEvent, Move(room, board, isXNext))
      ensures svc.socket == old(svc.socket) && svc.listeners == old(svc.listeners)
      ensures svc.created == old(svc.created) && svc.closed == old(svc.closed)
    {
      if board[index].Some? || winner.Some? || !IsMyTurn(isXNext, role) {
        return;
      }
      var newBoard := board[index := Some(if isXNext then X else O)];
      board := newBoard;
      var w := CalculateWinner(newBoard);
      winner := w;
      svc.SendMove(Move(room, newBoard, !isXNext));
      isXNext := !isXNext;
    }

    /** `resetGame()`: tells the partner, then clears the board optimistically. */
    method ResetGame(svc: SocketService<GameMessage>)
      requires svc.Valid()
      modifies this, svc
      ensures svc.Valid()
      ensures board == EmptyBoard() && isXNext && winner == None
      ensures svc.emitted == old(svc.emitted) + EmitsOn(old(svc.socket), GameResetEvent, Reset(room))
      ensures svc.socket == old(svc.socket) && svc.listeners == old(svc.listeners)
      ensures svc.created == old(svc.created) && svc.closed == old(svc.closed)
    {
      svc.ResetGame(Reset(room));
      board := EmptyBoard();
      isXNext := true;
      winner := None;
    }

    /** The 'receive_move' listener: board and turn are replaced wholesale. */
    method ReceiveMove(data: Board, dataIsXNext: bool)
      modifies this
      ensures board == data && isXNext == dataIsXNext && winner == Winner(data)
    {
      board := data;
      isXNext := dataIsXNext;
      winner := CalculateWinner(data);
    }

    /** The 'receive_reset' listener. */
    method ReceiveReset()
      modifies this
      ensures board == EmptyBoard() && isXNext && winner == None
    {
      board := EmptyBoard();
      isXNext := true;
      winner := None;
    }
  }

  /** A move made by one player and received by the other leaves both boards, turns
      and winners equal, and the mover no longer has the turn. */
  method MoveReachesPartner(me: Game, partner: Game, index: nat, svc: SocketService<GameMessage>)
    requires me != partner && me.room == partner.room
    requires index < |me.board| && svc.Valid() && svc.socket.Some?
    requires !ClickIgnored(me.board, me.winner, me.isXNext, me.role, index)
    modifies me, partner, svc
    ensures me.board == partner.board && me.isXNext == partner.isXNext && me.winner == partner.winner
    ensures !IsMyTurn(me.isXNext, me.role)
  {
    var before := |svc.emitted|;
    me.HandleClick(index, svc);
    var sent := svc.emitted[before];
    partner.ReceiveMove(sent.payload.board, sent.payload.isXNext);
  }

  /** Mounting the game and running the effect's cleanup leaves no game listener on
      the socket, and every other registration exactly as often as before. */
  method SubscribeThenCleanUp(g: Game, svc: SocketService<GameMessage>) returns (s: Sock)
    requires svc.Valid()
    modifies svc
    ensures forall l: Listener :: l.sock == s && (l.event == ReceiveMoveEvent || l.event == ReceiveResetEvent) ==>
              multiset(svc.listeners)[l] == 0
    ensures forall l: Listener :: !(l.sock == s && (l.event == ReceiveMoveEvent || l.event == ReceiveResetEvent)) ==>
              multiset(svc.listeners)[l] == multiset(old(svc.listeners))[l]
  {
    var before := svc.listeners;
    s := g.Subscribe(svc);
    var added := [Listener(s, ReceiveMoveEvent, MoveHandler), Listener(s, ReceiveResetEvent, ResetHandler)];
    assert multiset(svc.listeners) == multiset(before) + multiset(added);
    g.CleanUp(svc, s);
  }
}
