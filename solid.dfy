/**
 * The "Problem" halves of the SOLID examples: a payment processor and a
 * notification service that dispatch on a string, a Square that breaks the
 * Rectangle contract, and a printer forced to implement operations it lacks.
 */
module SolidProblem {

  import opened Wrappers
  import opened Text

  /** The branch `process_payment` takes. */
  datatype PaymentBranch = CreditCard | Paypal

  /**
   * "credit_card" runs the credit-card branch, "paypal" the PayPal branch;
   * any other payment type does nothing.
   */
  function ProcessPayment(paymentType: string): (b: Option<PaymentBranch>)
    ensures b == Some(CreditCard) <==> paymentType == "credit_card"
    ensures b == Some(Paypal) <==> paymentType == "paypal"
    ensures b == None <==> paymentType != "credit_card" && paymentType != "paypal"
  {
    if paymentType == "credit_card" then Some(CreditCard)
    else if paymentType == "paypal" then Some(Paypal)
    else None
  }

  /**
   * A rectangle, or a square that inherits the rectangle's constructor and area
   * but overrides both setters; `isSquare` says which class the object is.
   */
  class Rectangle {
    const isSquare: bool
    var width: int
    var height: int

    constructor (width: int, height: int)
      ensures !isSquare && this.width == width && this.height == height
    {
      isSquare := false;
      this.width, this.height := width, height;
    }

    /** A square is built by the inherited constructor, so nothing makes its sides equal yet. */
    constructor Square(width: int, height: int)
      ensures isSquare && this.width == width && this.height == height
    {
      isSquare := true;
      this.width, this.height := width, height;
    }

    /** A rectangle changes only its width; a square sets both sides. */
    method SetWidth(width: int)
      modifies this
      ensures this.width == width
      ensures !isSquare ==> height == old(height)
      ensures isSquare ==> height == width
    {
      this.width := width;
      if isSquare {
        height := width;
      }
    }

    /** A rectangle changes only its height; a square sets both sides. */
    method SetHeight(height: int)
      modifies this
      ensures this.height == height
      ensures !isSquare ==> width == old(width)
      ensures isSquare ==> width == height
    {
      if isSquare {
        width := height;
      }
      this.height := height;
    }

    /** The area is zero exactly when a side is, and covers each side of a rectangle with positive sides. */
    function GetArea(): (a: int)
      reads this
      ensures a == 0 <==> width == 0 || height == 0
      ensures width > 0 && height > 0 ==> a >= width && a >= height
    {
      width * height
    }
  }

  function AreaLine(area: int): string {
    "Area: " + IntToString(area)
  }

  lemma AreaLines()
    ensures AreaLine(50) == "Area: 50" && AreaLine(100) == "Area: 100"
  {
    assert NatToString(5) == "5" && NatToString(10) == "10";
    assert NatToString(50) == "50" && NatToString(100) == "100";
  }

  /**
   * Sets the width to 5, then the height to 10, and prints the area. A rectangle
   * ends 5 by 10 with area 50; a square ends 10 by 10 with area 100, which is the
   * violation: code written for rectangles gets a different answer.
   */
  method PrintArea(rectangle: Rectangle) returns (line: string)
    modifies rectangle
    ensures line == AreaLine(rectangle.GetArea())
    ensures !rectangle.isSquare ==> rectangle.width == 5 && rectangle.height == 10 && line == "Area: 50"
    ensures rectangle.isSquare ==> rectangle.width == 10 && rectangle.height == 10 && line == "Area: 100"
  {
    rectangle.SetWidth(5);
    rectangle.SetHeight(10);
    line := AreaLine(rectangle.GetArea());
    AreaLines();
  }

  /** The demo: Rectangle(2, 3) prints "Area: 50", Square(2, 2) prints "Area: 100". */
  method PrintAreaDemo() returns (lines: seq<string>)
    ensures lines == ["Area: 50", "Area: 100"]
  {
    var rect := new Rectangle(2, 3);
    var l1 := PrintArea(rect);
    var sq := new Rectangle.Square(2, 2);
    var l2 := PrintArea(sq);
    lines := [l1, l2];
  }

  /** The old printer: printing works, scanning and faxing always raise NotImplementedError. */
  datatype OldFashionedPrinter = OldFashionedPrinter {

    function Print(document: string): (r: Result<()>)
      ensures r.Success?
    {
      Success(())
    }

    function Scan(document: string): (r: Result<()>)
      ensures r.Failure? && r.error == PyError("NotImplementedError", "Scan not supported")
    {
      Failure(PyError("NotImplementedError", "Scan not supported"))
    }

    function Fax(document: string): (r: Result<()>)
      ensures r.Failure? && r.error == PyError("NotImplementedError", "Fax not supported")
    {
      Failure(PyError("NotImplementedError", "Fax not supported"))
    }
  }

  function EmailLine(message: string): string {
    "Sending email: " + message
  }

  function SmsLine(message: string): string {
    "Sending SMS: " + message
  }

  /** An email line is never an SMS line. */
  lemma LinesDiffer(message: string)
    ensures EmailLine(message) != SmsLine(message)
  {
    assert EmailLine(message)[8] == 'e' && SmsLine(message)[8] == 'S';
  }

  lemma HelloLines()
    ensures EmailLine("Hello, World!") == "Sending email: Hello, World!"
    ensures SmsLine("Hello, World!") == "Sending SMS: Hello, World!"
  {
    var m := "Hello, World!";
    assert EmailLine(m) == "Sending email: Hello, World!" by {
      assert |EmailLine(m)| == |"Sending email: Hello, World!"|;
      forall k | 0 <= k < |EmailLine(m)| ensures EmailLine(m)[k] == "Sending email: Hello, World!"[k] {
      }
    }
    assert SmsLine(m) == "Sending SMS: Hello, World!" by {
      assert |SmsLine(m)| == |"Sending SMS: Hello, World!"|;
      forall k | 0 <= k < |SmsLine(m)| ensures SmsLine(m)[k] == "Sending SMS: Hello, World!"[k] {
      }
    }
  }

  /**
   * The service owns an email sender and an SMS sender and picks one by name;
   * any other method name sends nothing.
   */
  function SendNotification(message: string, method_: string): (lines: seq<string>)
    ensures method_ == "email" <==> lines == [EmailLine(message)]
    ensures method_ == "sms" <==> lines == [SmsLine(message)]
    ensures lines == [] <==> method_ != "email" && method_ != "sms"
  {
    LinesDiffer(message);
    if method_ == "email" then [EmailLine(message)]
    else if method_ == "sms" then [SmsLine(message)]
    else []
  }

  /** The demo sends "Hello, World!" by email, then by SMS. */
  lemma NotificationDemo()
    ensures SendNotification("Hello, World!", "email") + SendNotification("Hello, World!", "sms")
            == ["Sending email: Hello, World!", "Sending SMS: Hello, World!"]
  {
    HelloLines();
  }
}

/**
 * The "Solve" halves: payments and message senders as separate types the
 * processor and service delegate to, a Square that is its own shape, and
 * printers that only offer what they support.
 */
module SolidSolve {

  import opened Wrappers
  import SolidProblem

  /** The payment kinds; each processes itself. */
  datatype Payment = CreditCardPayment | PaypalPayment

  /** The processor delegates to the payment it is handed. */
  function ProcessPayment(payment: Payment): (b: SolidProblem.PaymentBranch)
    ensures payment.CreditCardPayment? <==> b == SolidProblem.CreditCard
  {
    match payment
    case CreditCardPayment => SolidProblem.CreditCard
    case PaypalPayment => SolidProblem.Paypal
  }

  /** The string the "Problem" processor dispatches on for each payment kind. */
  function PaymentTypeName(payment: Payment): string {
    match payment
    case CreditCardPayment => "credit_card"
    case PaypalPayment => "paypal"
  }

  /** Both processors run the same branch for the same payment kind. */
  lemma PaymentAgreement(payment: Payment)
    ensures SolidProblem.ProcessPayment(PaymentTypeName(payment)) == Some(ProcessPayment(payment))
  {
  }

  /** A rectangle whose setters change only their own side. */
  class Rectangle {
    var width: int
    var height: int

    constructor (width: int, height: int)
      ensures this.width == width && this.height == height
    {
      this.width, this.height := width, height;
    }

    method SetWidth(width: int)
      modifies this
      ensures this.width == width && height == old(height)
    {
      this.width := width;
    }

    method SetHeight(height: int)
      modifies this
      ensures this.height == height && width == old(width)
    {
      this.height := height;
    }

    /** The area is zero exactly when a side is, and covers each side of a rectangle with positive sides. */
    function GetArea(): (a: int)
      reads this
      ensures a == 0 <==> width == 0 || height == 0
      ensures width > 0 && height > 0 ==> a >= width && a >= height
    {
      width * height
    }
  }

  /** A square with a single side. */
  class Square {
    var side: int

    constructor (side: int)
      ensures this.side == side
    {
      this.side := side;
    }

    method SetSide(side: int)
      modifies this
      ensures this.side == side
    {
      this.side := side;
    }

    function GetArea(): (a: int)
      reads this
      ensures a >= 0
    {
      side * side
    }
  }

  /** Setting the width then the height of a rectangle gives their product, whatever it held before. */
  method SetBoth(r: Rectangle, width: int, height: int) returns (area: int)
    modifies r
    ensures r.width == width && r.height == height && area == width * height
  {
    r.SetWidth(width);
    r.SetHeight(height);
    area := r.GetArea();
  }

  /**
   * A "Problem" square after either setter is a square of that side: its area is
   * the one a "Solve" square with that side reports.
   */
  method SquaresAgree(p: SolidProblem.Rectangle, s: Square, side: int) returns (pArea: int, sArea: int)
    requires p.isSquare
    modifies p, s
    ensures pArea == sArea == side * side
  {
    p.SetWidth(side);
    s.SetSide(side);
    pArea, sArea := p.GetArea(), s.GetArea();
  }

  /** The demo: Rectangle(5, 10) prints "Area: 50", Square(10) prints "Area: 100". */
  method PrintAreaDemo() returns (lines: seq<string>)
    ensures lines == ["Area: 50", "Area: 100"]
  {
    var rect := new Rectangle(5, 10);
    var sq := new Square(10);
    SolidProblem.AreaLines();
    lines := [SolidProblem.AreaLine(rect.GetArea()), SolidProblem.AreaLine(sq.GetArea())];
  }

  /** The printer that only prints, and the device that prints, scans and faxes: none of them fails. */
  datatype SimplePrinter = SimplePrinter {
    function Print(document: string): (r: Result<()>)
      ensures r.Success?
    {
      Success(())
    }
  }

  datatype MultiFunctionDevice = MultiFunctionDevice {
    function Print(document: string): (r: Result<()>)
      ensures r.Success?
    {
      Success(())
    }

    function Scan(document: string): (r: Result<()>)
      ensures r.Success?
    {
      Success(())
    }

    function Fax(document: string): (r: Result<()>)
      ensures r.Success?
    {
      Success(())
    }
  }

  /** The senders; the service is handed one and always delegates to it. */
  datatype MessageSender = EmailSender | SmsSender {
    function Send(message: string): (line: string)
      ensures this.EmailSender? ==> line == SolidProblem.EmailLine(message)
      ensures this.SmsSender? ==> line == SolidProblem.SmsLine(message)
    {
      match this
      case EmailSender => SolidProblem.EmailLine(message)
      case SmsSender => SolidProblem.SmsLine(message)
    }

    /** The method name the "Problem" service would be given for this sender. */
    function MethodName(): string {
      match this
      case EmailSender => "email"
      case SmsSender => "sms"
    }
  }

  datatype NotificationService = NotificationService(sender: MessageSender) {
    function SendNotification(message: string): (lines: seq<string>)
      ensures lines == [sender.Send(message)]
    {
      [sender.Send(message)]
    }
  }

  /** The injected sender sends exactly what the "Problem" service sends when named. */
  lemma NotificationAgreement(sender: MessageSender, message: string)
    ensures NotificationService(sender).SendNotification(message)
            == SolidProblem.SendNotification(message, sender.MethodName())
  {
  }

  /** The demo: the email service then the SMS service send "Hello, World!". */
  lemma NotificationDemo()
    ensures NotificationService(EmailSender).SendNotification("Hello, World!")
            + NotificationService(SmsSender).SendNotification("Hello, World!")
            == ["Sending email: Hello, World!", "Sending SMS: Hello, World!"]
  {
    SolidProblem.HelloLines();
  }
}
