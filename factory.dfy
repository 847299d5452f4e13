/** The Factory Method example: a factory that makes a dog or a cat from a type name. */
module FactoryPattern {

  import opened Wrappers

  datatype Animal = Dog | Cat

  /** What each animal says. */
  function Speak(a: Animal): (s: string)
    ensures a == Dog <==> s == "Woof!"
    ensures a == Cat <==> s == "Meow!"
  {
    match a
    case Dog => "Woof!"
    case Cat => "Meow!"
  }

  /** "dog" makes a Dog, "cat" a Cat; any other name raises ValueError. */
  function CreateAnimal(animalType: string): (r: Result<Animal>)
    ensures r.Success? <==> animalType == "dog" || animalType == "cat"
    ensures r == Success(Dog) <==> animalType == "dog"
    ensures r == Success(Cat) <==> animalType == "cat"
    ensures r.Failure? ==> r.error == PyError("ValueError", "Invalid animal type")
  {
    if animalType == "dog" then Success(Dog)
    else if animalType == "cat" then Success(Cat)
    else Failure(PyError("ValueError", "Invalid animal type"))
  }

  /** The name an animal is made from; the factory inverts it. */
  function TypeName(a: Animal): string {
    match a
    case Dog => "dog"
    case Cat => "cat"
  }

  /** The factory makes back exactly the animal a type name stands for. */
  lemma CreateFromTypeName(a: Animal)
    ensures CreateAnimal(TypeName(a)) == Success(a)
  {
  }

  /** An animal the factory made from a name says "Woof!" exactly when the name was "dog". */
  lemma CreatedAnimalSpeaks(animalType: string)
    requires CreateAnimal(animalType).Success?
    ensures Speak(CreateAnimal(animalType).value) == "Woof!" <==> animalType == "dog"
    ensures Speak(CreateAnimal(animalType).value) == "Meow!" <==> animalType == "cat"
  {
  }
}

/** The Adapter example: a European socket seen through the US socket interface. */
module AdapterPattern {

  import opened Text

  /** The existing socket: 230 volts, live 1, neutral -1, no ground. */
  datatype EuropeanSocket = EuropeanSocket {
    function Voltage(): (v: int)
      ensures v == 230
    {
      230
    }

    function Live(): (v: int)
      ensures v == 1
    {
      1
    }

    function Neutral(): (v: int)
      ensures v == -1
    {
      -1
    }
  }

  /** The adapter holds the socket it adapts. */
  datatype EuropeanToUsaAdapter = EuropeanToUsaAdapter(europeanSocket: EuropeanSocket) {

    /** The voltage is converted to the US 120 volts. */
    function Voltage(): (v: int)
      ensures v == 120 && v != europeanSocket.Voltage()
    {
      120
    }

    /** Live and neutral are passed through from the adapted socket. */
    function Live(): (v: int)
      ensures v == europeanSocket.Live()
    {
      europeanSocket.Live()
    }

    function Neutral(): (v: int)
      ensures v == europeanSocket.Neutral()
    {
      europeanSocket.Neutral()
    }

    /** A European socket has no ground: 0. */
    function Ground(): (g: int)
      ensures g == 0
    {
      0
    }
  }

  /** The four lines the client prints for a US socket. */
  function ConnectDeviceToUsaSocket(socket: EuropeanToUsaAdapter): (lines: seq<string>)
    ensures |lines| == 4
  {
    [ "Voltage: " + IntToString(socket.Voltage()),
      "Live: " + IntToString(socket.Live()),
      "Neutral: " + IntToString(socket.Neutral()),
      "Ground: " + IntToString(socket.Ground()) ]
  }

  /** Through the adapter the client sees 120 volts, live 1, neutral -1 and ground 0. */
  lemma AdapterDemo(socket: EuropeanToUsaAdapter)
    ensures ConnectDeviceToUsaSocket(socket) == ["Voltage: 120", "Live: 1", "Neutral: -1", "Ground: 0"]
  {
    assert NatToString(12) == "12";
    assert NatToString(120) == "120";
    assert IntToString(-1) == "-1";
    var lines := ConnectDeviceToUsaSocket(socket);
    assert lines[0] == "Voltage: 120" && lines[1] == "Live: 1";
    assert lines[2] == "Neutral: -1" && lines[3] == "Ground: 0";
  }
}
