/**
 The browser side of the whiteboard, without its canvas and DOM: the pen
 (`isDrawing` and the last position), the tools (colour, brush size,
 eraser), the gate that drops sends while the socket is not OPEN, the
 routing of incoming messages by their `type`, and the participant-count
 label. What the canvas is asked to draw is kept as a log, and what is handed
 to the socket as an outbox.
 */
module Whiteboard {
  import opened Transport

  /** The colour the eraser paints with. */
  const EraserColor: string := "#0f0f0f"
  const InitialColor: string := "#000000"
  const InitialBrushSize: int := 3

  /** One stroke from (x1, y1) to (x2, y2). */
  datatype Segment = Segment(x1: real, y1: real, x2: real, y2: real, color: string, size: int)

  /** What the client sends: `{type:'draw', ...}` or `{type:'clear'}`. */
  datatype Outgoing = DrawMsg(segment: Segment) | ClearMsg

  /**
   A parsed incoming message: its `type` and the fields the handlers read.
   Fields a message does not carry hold arbitrary values; no handler reads them.
   */
  datatype Inbound = Inbound(kind: string, count: int, segment: Segment)

  /** What the canvas was asked to do. */
  datatype CanvasOp = Line(segment: Segment) | Wipe

  /** What `onmessage` does with one message. */
  datatype Effect = ShowCount(count: int) | RemoteStroke(segment: Segment) | ClearBoard | NoEffect

  /** The stroke colour: the eraser's sentinel while the eraser is on, the picked colour otherwise. */
  function StrokeColor(isEraser: bool, currentColor: string): (color: string)
    ensures isEraser ==> color == "#0f0f0f"
    ensures !isEraser ==> color == currentColor
  {
    if isEraser then EraserColor else currentColor
  }

  /** `if (this.ws.readyState === WebSocket.OPEN) this.ws.send(m)`. */
  function Transmit(state: ReadyState, sent: seq<Outgoing>, m: Outgoing): (r: seq<Outgoing>)
    ensures |r| == |sent| + (if state == Open then 1 else 0)
    ensures r[..|sent|] == sent
    ensures state == Open ==> r[|sent|] == m
  {
    if CanSend(state) then sent + [m] else sent
  }

  /** The `onmessage` dispatch on `data.type`. */
  function Dispatch(data: Inbound): (effect: Effect)
    ensures effect == ShowCount(data.count) <==> data.kind == "userCount"
    ensures effect == RemoteStroke(data.segment) <==> data.kind == "draw"
    ensures effect == ClearBoard <==> data.kind == "clear"
    ensures effect == NoEffect <==> data.kind != "userCount" && data.kind != "draw" && data.kind != "clear"
  {
    if data.kind == "userCount" then ShowCount(data.count)
    else if data.kind == "draw" then RemoteStroke(data.segment)
    else if data.kind == "clear" then ClearBoard
    else NoEffect
  }

  // Decimal rendering of a number, as a template literal prints an integer.

  function DigitChar(d: nat): char
    requires d < 10
  {
    ('0' as int + d) as char
  }

  function DigitValue(ch: char): nat
  {
    if '0' <= ch <= '9' then ch as int - '0' as int else 0
  }

  /** The decimal digits of `n`, most significant first, without leading zeros. */
  function NatToDecimal(n: nat): (s: string)
    ensures s != []
    ensures forall i :: 0 <= i < |s| ==> '0' <= s[i] <= '9'
    ensures |s| > 1 ==> s[0] != '0'
  {
    if n < 10 then [DigitChar(n)] else NatToDecimal(n / 10) + [DigitChar(n % 10)]
  }

  /** Reads a string of decimal digits back as a number. */
  function ParseDecimal(s: string): nat
  {
    if s == [] then 0 else ParseDecimal(s[..|s| - 1]) * 10 + DigitValue(s[|s| - 1])
  }

  function IntToDecimal(n: int): string
  {
    if n < 0 then "-" + NatToDecimal(-n) else NatToDecimal(n)
  }

  /** The participant-count label: "1 user", otherwise "N users". */
  function CountLabel(count: int): (text: string)
    ensures |text| > |IntToDecimal(count)| && text[..|IntToDecimal(count)|] == IntToDecimal(count)
    ensures text[|text| - 1] == 's' <==> count != 1
    ensures text == IntToDecimal(count) + (if count == 1 then " user" else " users")
  {
    IntToDecimal(count) + " user" + (if count != 1 then "s" else "")
  }

  /** Reading the digits back gives the number that was rendered. */
  lemma {:induction false} DecimalRoundTrip(n: nat)
    ensures ParseDecimal(NatToDecimal(n)) == n
  {
    var s := NatToDecimal(n);
    if n >= 10 {
      DecimalRoundTrip(n / 10);
      assert s[..|s| - 1] == NatToDecimal(n / 10);
    }
  }

  /** Distinct naturals are rendered differently. */
  lemma NatToDecimalInjective(a: nat, b: nat)
    requires NatToDecimal(a) == NatToDecimal(b)
    ensures a == b
  {
    DecimalRoundTrip(a);
    DecimalRoundTrip(b);
  }

  /** Distinct integers are rendered differently. */
  lemma IntToDecimalInjective(a: int, b: int)
    requires IntToDecimal(a) == IntToDecimal(b)
    ensures a == b
  {
    var da, db := IntToDecimal(a), IntToDecimal(b);
    if a < 0 && b < 0 {
      assert da[1..] == NatToDecimal(-a);
      assert db[1..] == NatToDecimal(-b);
      NatToDecimalInjective(-a, -b);
    } else if a >= 0 && b >= 0 {
      NatToDecimalInjective(a, b);
    }
  }

  /** The label is "1 user" for one participant. */
  lemma CountLabelOne()
    ensures CountLabel(1) == "1 user"
  {
    assert NatToDecimal(1) == "1";
  }

  /** Different counts never show the same label. */
  lemma CountLabelInjective(a: int, b: int)
    requires CountLabel(a) == CountLabel(b)
    ensures a == b
  {
    var la, lb := CountLabel(a), CountLabel(b);
    var da, db := IntToDecimal(a), IntToDecimal(b);
    if (a != 1) == (b != 1) {
      var suffix := " user" + (if a != 1 then "s" else "");
      assert la == da + suffix && lb == db + suffix;
      assert da == la[..|la| - |suffix|];
      assert db == lb[..|lb| - |suffix|];
      IntToDecimalInjective(a, b);
    }
  }

  /**
   `CollaborativeWhiteboard` with its canvas replaced by the log of what it
   was asked to draw, its socket by the socket's `readyState` and the
   messages handed to `send`, and its DOM by the count label's text.
   */
  class CollaborativeWhiteboard {
    var isDrawing: bool
    var lastX: real
    var lastY: real
    var currentColor: string
    var brushSize: int
    var isEraser: bool
    var socket: ReadyState
    var sent: seq<Outgoing>
    var canvas: seq<CanvasOp>
    var userCountLabel: string

    /** A fresh board: pen up, black, size 3, no eraser, a socket still connecting. */
    constructor (initialLabel: string)
      ensures !isDrawing && currentColor == InitialColor && brushSize == InitialBrushSize && !isEraser
      ensures socket == Connecting && sent == [] && canvas == [] && userCountLabel == initialLabel
    {
      isDrawing := false;
      lastX, lastY := 0.0, 0.0;
      currentColor := InitialColor;
      brushSize := InitialBrushSize;
      isEraser := false;
      socket := Connecting;
      sent := [];
      canvas := [];
      userCountLabel := initialLabel;
    }

    /** `startDrawing`: pen down at (x, y). */
    method StartDrawing(x: real, y: real)
      modifies this`isDrawing, this`lastX, this`lastY
      ensures isDrawing && lastX == x && lastY == y
    {
      isDrawing := true;
      lastX := x;
      lastY := y;
    }

    /**
     `draw`: with the pen up nothing happens; with the pen down one segment
     from the last position to (x, y) is drawn and sent, and (x, y) becomes
     the last position.
     */
    method Draw(x: real, y: real)
      modifies this`lastX, this`lastY, this`canvas, this`sent
      ensures !isDrawing ==> lastX == old(lastX) && lastY == old(lastY) && canvas == old(canvas) && sent == old(sent)
      ensures isDrawing ==>
        var segment := Segment(old(lastX), old(lastY), x, y, StrokeColor(isEraser, currentColor), brushSize);
        && canvas == old(canvas) + [Line(segment)]
        && sent == Transmit(socket, old(sent), DrawMsg(segment))
        && lastX == x && lastY == y
    {
      if !isDrawing {
        return;
      }
      canvas := canvas + [Line(Segment(lastX, lastY, x, y, StrokeColor(isEraser, currentColor), brushSize))];
      SendDrawData(Segment(lastX, lastY, x, y, StrokeColor(isEraser, currentColor), brushSize));
      lastX := x;
      lastY := y;
    }

    /** `stopDrawing`: pen up. */
    method StopDrawing()
      modifies this`isDrawing
      ensures !isDrawing
    {
      isDrawing := false;
    }

    /** The colour picker: take the colour and switch the eraser off. */
    method PickColor(color: string)
      modifies this`currentColor, this`isEraser
      ensures currentColor == color && !isEraser
    {
      currentColor := color;
      isEraser := false;
    }

    /** The eraser button flips the eraser. */
    method ToggleEraser()
      modifies this`isEraser
      ensures isEraser == !old(isEraser)
    {
      isEraser := !isEraser;
    }

    /** The brush-size slider. */
    method SetBrushSize(size: int)
      modifies this`brushSize
      ensures brushSize == size
    {
      brushSize := size;
    }

    /** The clear button: only when confirmed, clear here and then tell the others. */
    method ClickClear(confirmed: bool)
      modifies this`canvas, this`sent
      ensures confirmed ==> canvas == old(canvas) + [Wipe] && sent == Transmit(socket, old(sent), ClearMsg)
      ensures !confirmed ==> canvas == old(canvas) && sent == old(sent)
    {
      if confirmed {
        ClearCanvas();
        SendClearMessage();
      }
    }

    /** `clearCanvas`. */
    method ClearCanvas()
      modifies this`canvas
      ensures canvas == old(canvas) + [Wipe]
    {
      canvas := canvas + [Wipe];
    }

    /** `sendDrawData`: sent only while the socket is OPEN, silently dropped otherwise. */
    method SendDrawData(segment: Segment)
      modifies this`sent
      ensures CanSend(socket) ==> sent == old(sent) + [DrawMsg(segment)]
      ensures !CanSend(socket) ==> sent == old(sent)
    {
      if socket == Open {
        sent := sent + [DrawMsg(segment)];
      }
    }

    /** `sendClearMessage`: `{type:'clear'}`, under the same gate. */
    method SendClearMessage()
      modifies this`sent
      ensures CanSend(socket) ==> sent == old(sent) + [ClearMsg]
      ensures !CanSend(socket) ==> sent == old(sent)
    {
      if socket == Open {
        sent := sent + [ClearMsg];
      }
    }

    /** `updateUserCount`: the label shows the count with its plural. */
    method UpdateUserCount(count: int)
      modifies this`userCountLabel
      ensures userCountLabel == CountLabel(count)
    {
      userCountLabel := CountLabel(count);
    }

    /** `onmessage`: route by `type`; an unknown type is ignored. */
    method OnMessage(data: Inbound)
      modifies this`userCountLabel, this`canvas
      ensures data.kind == "userCount" ==> userCountLabel == CountLabel(data.count) && canvas == old(canvas)
      ensures data.kind == "draw" ==> canvas == old(canvas) + [Line(data.segment)] && userCountLabel == old(userCountLabel)
      ensures data.kind == "clear" ==> canvas == old(canvas) + [Wipe] && userCountLabel == old(userCountLabel)
      ensures Dispatch(data) == NoEffect ==> canvas == old(canvas) && userCountLabel == old(userCountLabel)
    {
      match Dispatch(data)
      case ShowCount(count) => UpdateUserCount(count);
      case RemoteStroke(segment) => canvas := canvas + [Line(segment)];
      case ClearBoard => ClearCanvas();
      case NoEffect =>
    }

    /** The transport moving the socket to another `readyState`. */
    method OnSocketState(state: ReadyState)
      modifies this`socket
      ensures socket == state
    {
      socket := state;
    }
  }

  /** Two clicks on the eraser button leave the eraser as it was. */
  method ToggleEraserTwice(board: CollaborativeWhiteboard)
    modifies board`isEraser
    ensures board.isEraser == old(board.isEraser)
    ensures board.currentColor == old(board.currentColor)
  {
    board.ToggleEraser();
    board.ToggleEraser();
  }
}
