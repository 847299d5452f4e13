# Programming3 teaching snippets, modelled in Dafny

This project models the behaviour of four Python teaching scripts and proves
what they promise:

- **Multiproccessing.py**: the trial-division primality test `is_prime`
  (divisors 2, 3, then 6k - 1 and 6k + 1 up to the square root), the count
  of primes `sum(pool.map(is_prime, range(N)))` as a sequential map, the
  pipe demo's `sender` and `receiver` (the receiver prints every message
  before the first `"END"`), and the `calc_square` / `calc_cube` workers.
  The file repeats lines 1-31 as lines 33-63; both copies define the same
  workers.
- **DesignPattern.py**: the Memento writer `X` and caretaker `Y`, the `Game`
  with `save_state` / `load_state`, the `AnimalFactory` with its
  `ValueError` branch, the `ComputerBuilder`, whose `build` reads six
  attributes that only exist once their `build_*` method ran, the two
  Flyweight caches (`FlyweightFactory` keyed by intrinsic state, and
  `ShapeFactory`, a dictionary of one-circle lists that the client re-uses
  and moves for every drawing of a colour), and the socket adapter.
- **DecoratorDesignPattern.py**: `shout`, `whisper`, `getTalk`,
  `doSomethingBefore`, and the decorators `my_shiny_new_decorator`, `bread`,
  `ingredients`, `benchmark`, `logging`, `counter`, `timer`, `debug` and
  `slow_down`. A target is a named function from a call (positional and
  keyword arguments) to a run: the events it printed and whether it returned
  a value or raised. Each decorator maps a target to its wrapper. The counter,
  whose `count` attribute lives on across calls, is a class.
- **solidPrincibles.py**: the "Problem" and "Solve" halves of the SOLID
  examples. They are separate modules because the script redefines the same
  class names. Python's subclassing of `Rectangle` by `Square` is a
  constant `isSquare` tag on one class. The script's own demo stops at its
  line 229, where `scan` raises an uncaught `NotImplementedError`; the model
  treats every example independently.

Printing is modelled as returning the printed lines (or trace events) in
order. A Python attribute that does not exist until some method sets it is an
`Option` field, and reading it while unset is a `Failure` carrying
`AttributeError`. Python exceptions are `Result` / `Outcome` values.

Files: `common.dfy` (result types, decimal `str(int)` with its parser, ASCII
case mapping, `join`), `multiprocessing.dfy`, `memento.dfy`, `game.dfy`,
`factory.dfy` (factory and adapter), `builder.dfy`, `flyweight.dfy`,
`decorators.dfy`, `solid.dfy`.

## Model

| member | source | states |
|---|---|---|
| Multiprocessing.IsPrime | Multiproccessing.py:68-80 | returns true exactly when n is prime (n ≥ 2 with no divisor in [2, n)); the loop keeps i ≥ 5, i ≡ 5 (mod 6) and no divisor below i |
| Multiprocessing.SmallPrimes | Multiproccessing.py:69-72 | 0 and 1 are not prime, 2 and 3 are |
| Multiprocessing.CountTrue | Multiproccessing.py:98 | `sum` over booleans counts at most one per entry |
| Multiprocessing.MapIsPrime | Multiproccessing.py:91 | one flag per number, in order; flag k is true exactly when number k is prime |
| Multiprocessing.CountTrueCountsPrimes | Multiproccessing.py:91-98 | the count of true flags for 0 .. n - 1 equals the number of primes below n |
| Multiprocessing.CountPrimes | Multiproccessing.py:84-100 | `sum(map(is_prime, range(n)))` is the number of primes below n |
| Multiprocessing.BeforeSentinel | Multiproccessing.py:132-136 | the messages taken are a prefix holding no "END"; they stop short of the whole list exactly when "END" occurs, and then the next message is "END" |
| Multiprocessing.Sender | Multiproccessing.py:118-125 | every message enters the pipe in list order, with one "Sent the message" line each |
| Multiprocessing.Receiver | Multiproccessing.py:127-136 | prints one "Received the message" line per message before the first "END", in order; stops exactly when "END" arrives, otherwise waits forever |
| Multiprocessing.PipeDemo | Multiproccessing.py:138-156 | the receiver prints exactly the sender's messages before the first "END", in order |
| Multiprocessing.DemoMessages | Multiproccessing.py:140 | on the demo list the receiver prints "hello", "hey", "hru?" |
| Multiprocessing.CalcSquare | Multiproccessing.py:4-7 | one "square n*n" line per number, in input order |
| Multiprocessing.CalcCube | Multiproccessing.py:9-12 | one "cube n*n*n" line per number, in input order |
| Multiprocessing.PowerLinesDecode | Multiproccessing.py:36-44 | reading the number back from a printed line gives n*n (n*n*n) |
| Multiprocessing.DemoPowers | Multiproccessing.py:16-20 | on [2, 3, 8] the workers print squares 4, 9, 64 and cubes 8, 27, 512 |
| MementoPattern.Writer.constructor | DesignPattern.py:27-31 | a new writer has the given path and empty content |
| MementoPattern.Writer.Write | DesignPattern.py:35-36 | content becomes content + s; the path is unchanged |
| MementoPattern.Writer.Save | DesignPattern.py:40-41 | the memento holds the current path and content |
| MementoPattern.Writer.Undo | DesignPattern.py:45-47 | both attributes are restored from the memento |
| MementoPattern.Caretaker.constructor | DesignPattern.py:50-60 | a new caretaker holds no snapshot (the class has no `__init__`, so `mem` is unset until the first save) |
| MementoPattern.Caretaker.Save | DesignPattern.py:54-55 | keeps a snapshot of the writer, replacing any earlier one |
| MementoPattern.Caretaker.Undo | DesignPattern.py:59-60 | restores the writer from the snapshot; before any save it fails with AttributeError and changes nothing |
| MementoPattern.SaveWriteUndo | DesignPattern.py:54-60 | save, any write, undo: the writer is back to its state at the save |
| MementoPattern.UndoTwice | DesignPattern.py:59-60 | undoing twice leaves the same state as undoing once |
| MementoPattern.Demo | DesignPattern.py:63-87 | the demo shows the first version, both versions, then the first again |
| GamePattern.Game.constructor | DesignPattern.py:95-97 | a new game is at level 1 with health 100 |
| GamePattern.Game.Play | DesignPattern.py:99-103 | level + 1, health - 10, and the new status is printed |
| GamePattern.Game.SaveState | DesignPattern.py:105-106 | the state holds the current level and health |
| GamePattern.Game.LoadState | DesignPattern.py:108-110 | level and health are set from the state |
| GamePattern.SavePlayLoad | DesignPattern.py:105-110 | loading a state saved before a round undoes that round |
| GamePattern.Demo | DesignPattern.py:112-125 | the demo prints level 2 / 90, level 3 / 80, "After loading saved state:", then level 2 / 90 again |
| FactoryPattern.Speak | DesignPattern.py:136-142 | a dog says "Woof!" and a cat "Meow!", and nothing else says either |
| FactoryPattern.CreateAnimal | DesignPattern.py:144-152 | "dog" makes a dog, "cat" a cat, anything else raises ValueError "Invalid animal type" |
| FactoryPattern.CreateFromTypeName | DesignPattern.py:146-150 | the factory makes back the animal a type name stands for |
| FactoryPattern.CreatedAnimalSpeaks | DesignPattern.py:154-159 | a created animal says "Woof!" exactly when made from "dog", "Meow!" exactly when made from "cat" |
| BuilderPattern.ComputerBuilder.constructor | DesignPattern.py:187-188 | a new builder has no part set |
| BuilderPattern.ComputerBuilder.BuildCase | DesignPattern.py:190-192 | sets the case only and returns the same builder |
| BuilderPattern.ComputerBuilder.BuildMotherboard | DesignPattern.py:194-196 | sets the motherboard only and returns the same builder |
| BuilderPattern.ComputerBuilder.BuildCpu | DesignPattern.py:198-200 | sets the cpu only and returns the same builder |
| BuilderPattern.ComputerBuilder.BuildMemory | DesignPattern.py:202-204 | sets the memory only and returns the same builder |
| BuilderPattern.ComputerBuilder.BuildStorage | DesignPattern.py:206-208 | sets the storage only and returns the same builder |
| BuilderPattern.ComputerBuilder.BuildGpu | DesignPattern.py:210-212 | sets the gpu only and returns the same builder |
| BuilderPattern.ComputerBuilder.Build | DesignPattern.py:214-215 | succeeds exactly when all six parts are set and copies them; otherwise AttributeError naming the first missing part in argument order |
| BuilderPattern.Demo | DesignPattern.py:218-226 | the demo chain builds the configured computer |
| BuilderPattern.MissingPartFails | DesignPattern.py:186-215 | without `build_gpu` the build fails with AttributeError on 'gpu' |
| FlyweightPattern.ConcreteFlyweight.constructor | DesignPattern.py:325-326 | the flyweight keeps its intrinsic state |
| FlyweightPattern.ConcreteFlyweight.Operation | DesignPattern.py:327-328 | prints the intrinsic and extrinsic state separated by a space |
| FlyweightPattern.FlyweightFactory.constructor | DesignPattern.py:331-332 | the cache starts empty |
| FlyweightPattern.FlyweightFactory.GetFly | DesignPattern.py:333-336 | makes and caches a flyweight only when the key is absent, returns the cached instance otherwise; other keys untouched; every entry is filed under its own state |
| FlyweightPattern.GetFlyTwice | DesignPattern.py:333-336 | two requests for one key return the very same object |
| FlyweightPattern.FlyweightClient.Operation | DesignPattern.py:347-352 | fetches flyweights 1 and 2 and prints "1 e1" and "2 e2"; the cached keys grow by exactly 1 and 2, every flyweight cached before is kept as the same object, and only keys that were absent get new objects |
| FlyweightPattern.Circle.constructor | DesignPattern.py:368-372 | a circle keeps its position, radius and colour |
| FlyweightPattern.Circle.Draw | DesignPattern.py:374-375 | prints colour, position and radius |
| FlyweightPattern.ShapeFactory.constructor | DesignPattern.py:379-380 | the cache starts empty |
| FlyweightPattern.ShapeFactory.GetShape | DesignPattern.py:382-387 | afterwards the colour's list holds exactly one circle of that colour, and it is returned; the cached colours grow by this one and every list cached before is kept; the circle is new (at 0, 0, radius 0) only on the first request |
| FlyweightPattern.DrawnLines | DesignPattern.py:394-400 | one drawn line per input entry |
| FlyweightPattern.PlacementKeys | DesignPattern.py:394-400 | a colour is placed exactly when some entry has that colour |
| FlyweightPattern.PlacementIsLastEntry | DesignPattern.py:394-400 | a placed colour holds the entry of that colour with the highest index |
| FlyweightPattern.ShapeClient.Place | DesignPattern.py:397-399 | the entry's circle takes the entry's position and radius; circles of other colours keep theirs, and the cache is unchanged |
| FlyweightPattern.ShapeClient.DrawOne | DesignPattern.py:395-400 | one loop pass: the entry's colour is cached, its shared circle holds the entry and the line drawn is the entry's; lists cached before are kept, and the circle of every other cached colour keeps its position and radius |
| FlyweightPattern.ShapeClient.DrawShapes | DesignPattern.py:394-400 | draws every entry in order; afterwards each colour's single shared circle holds the last entry of that colour, and the circle of a colour cached before but absent from the input keeps its position and radius |
| FlyweightPattern.ShapeClient.Snapshot | DesignPattern.py:378-387 | the position of each cached colour's circle, read off before the loop |
| FlyweightPattern.ShapeClient.Settled | DesignPattern.py:394-400 | after the loop the cache holds the colours cached before plus those placed; placed colours hold their entry, the others their earlier position |
| FlyweightPattern.FirstDemoLine | DesignPattern.py:374-375 | the first line the demo draws is literally "Drawing a circle with color red at (10, 10) with radius 5" |
| FlyweightPattern.ShapeDemo | DesignPattern.py:402-410 | the demo leaves two circles; red holds (30, 30, 15), green (20, 20, 10) |
| AdapterPattern.EuropeanSocket.Voltage | DesignPattern.py:422-423 | the European socket gives 230 volts |
| AdapterPattern.EuropeanSocket.Live | DesignPattern.py:425-426 | its live wire is 1 |
| AdapterPattern.EuropeanSocket.Neutral | DesignPattern.py:428-429 | its neutral wire is -1 |
| AdapterPattern.EuropeanToUsaAdapter.Voltage | DesignPattern.py:450-452 | the adapter reports 120 volts, not the socket's 230 |
| AdapterPattern.EuropeanToUsaAdapter.Live | DesignPattern.py:454-455 | live is passed through from the adapted socket |
| AdapterPattern.EuropeanToUsaAdapter.Neutral | DesignPattern.py:457-458 | neutral is passed through from the adapted socket |
| AdapterPattern.EuropeanToUsaAdapter.Ground | DesignPattern.py:460-462 | the adapter reports ground 0, since the European socket has none |
| AdapterPattern.ConnectDeviceToUsaSocket | DesignPattern.py:465-469 | the client prints four lines |
| AdapterPattern.AdapterDemo | DesignPattern.py:446-469 | through the adapter the client sees 120 volts, live 1, neutral -1, ground 0 |
| FunctionObjects.Shout | DecoratorDesignPattern.py:6-7 | the capitalised word followed by "!" |
| FunctionObjects.Whisper | DecoratorDesignPattern.py:39-40 | the lower-cased word followed by "..." |
| FunctionObjects.DefaultTalk | DecoratorDesignPattern.py:6-10 | the default word gives "Yes!" and "yes..." |
| FunctionObjects.ShoutWhisperSameStem | DecoratorDesignPattern.py:66-70 | shout and whisper agree once lower-cased; shouting a shouted stem changes nothing |
| FunctionObjects.GetTalk | DecoratorDesignPattern.py:63-78 | "shout" returns the shout function, every other kind the whisper function |
| FunctionObjects.GetTalkDemo | DecoratorDesignPattern.py:83-95 | the default kind gives "Yes!", "whisper" gives "yes..." |
| FunctionObjects.TalkLines | DecoratorDesignPattern.py:37-47 | `talk` prints "yes..." |
| FunctionObjects.Scream | DecoratorDesignPattern.py:101-102 | `scream` returns "Aaaah!" |
| FunctionObjects.DoSomethingBefore | DecoratorDesignPattern.py:97-99 | prints the fixed line, then the function's result |
| FunctionObjects.DoSomethingBeforeScream | DecoratorDesignPattern.py:101-107 | with `scream` the second line is "Aaaah!" |
| Decorators.Repr | DecoratorDesignPattern.py:282 | a string's repr is the string in quotes; an int's repr reads back as the int |
| Decorators.TupleRepr | DecoratorDesignPattern.py:233 | a one-argument tuple shows as "(a,)" |
| Decorators.DictRepr | DecoratorDesignPattern.py:233 | no keyword arguments show as "{}" |
| Decorators.SignatureParts | DecoratorDesignPattern.py:282-283 | the argument reprs in order, then one "k=repr(v)" per keyword argument in order |
| Decorators.Decorate | DecoratorDesignPattern.py:113-303 | a `functools.wraps` wrapper (timer, debug, slow_down) keeps the target's name; the others are named "wrapper" or "the_wrapper_around_the_original_function" |
| Decorators.PassThroughResult | DecoratorDesignPattern.py:218-302 | benchmark, logging, timer, debug and slow_down return or raise exactly what the target does |
| Decorators.PassThroughTrace | DecoratorDesignPattern.py:218-302 | those wrappers keep the target's events unchanged (after debug's first line) and add nothing after a raise, except debug's first line |
| Decorators.Stack | DecoratorDesignPattern.py:250-253 | applying decorators bottom-up gives a function named as the first non-wraps layer from the outside says, or the target's name if there is none |
| Decorators.StackPassesResult | DecoratorDesignPattern.py:250-254 | any stack of pass-through wrappers returns exactly what the target returns |
| Decorators.StackName | DecoratorDesignPattern.py:250-254 | for any mix of layers: a stack keeps the target's name when every layer uses `functools.wraps`; otherwise the outermost layer that does not use it names the stack, whatever lies beneath it |
| Decorators.FirstNonWraps | DecoratorDesignPattern.py:250-253 | the stack's name is decided by its first non-wraps layer counted from the outside |
| Decorators.OnionOrder | DecoratorDesignPattern.py:178-207 | when the target returns: outer first lines first, then the target's events, then the last lines from the innermost out, and the call returns |
| Decorators.OnionOrderRaised | DecoratorDesignPattern.py:178-207 | when the target raises: the first lines from the outside in, then the target's events; no last line is printed and the same exception comes out |
| Decorators.AroundRejectsArguments | DecoratorDesignPattern.py:118 | a zero-argument wrapper given arguments raises TypeError before printing |
| Decorators.Printer | DecoratorDesignPattern.py:138-139 | a no-argument function prints its one line and returns None; given arguments it raises TypeError and prints nothing |
| Decorators.StandAlone | DecoratorDesignPattern.py:138-139 | `a_stand_alone_function` prints its line and returns None |
| Decorators.AnotherStandAlone | DecoratorDesignPattern.py:168-169 | `another_stand_alone_function` prints "Leave me alone" and returns None |
| Decorators.Sandwich | DecoratorDesignPattern.py:192-193 | `sandwich` prints "--ham--" with no argument, and otherwise the food given by position or by keyword |
| Decorators.ShinyStandAlone | DecoratorDesignPattern.py:138-175 | the shiny decorator prints "Before the function runs", the function's line, "After the function runs" |
| Decorators.BreadIngredientsSandwich | DecoratorDesignPattern.py:192-207 | bread(ingredients(sandwich)) prints bread top, tomatoes, ham, salad, bread bottom and returns None |
| Decorators.DebugLines | DecoratorDesignPattern.py:279-289 | debug prints "Calling name(sig)" first and "name() returned repr(value)" last |
| Decorators.DebugSignatureShape | DecoratorDesignPattern.py:282-285 | one positional and one keyword argument give "repr(a), k=repr(v)" |
| Decorators.Counter.constructor | DecoratorDesignPattern.py:247 | the count starts at 0 |
| Decorators.Counter.Call | DecoratorDesignPattern.py:242-246 | the count grows by one before the target runs; the result passes through; the "has been used" line only follows a completed call |
| Decorators.CallEach | DecoratorDesignPattern.py:238-248 | after K calls the count grew by K, and the k-th completed call reported the earlier count plus k + 1 |
| Decorators.LogLineOneString | DecoratorDesignPattern.py:233 | logging prints "name ('s',) {}" for one string argument |
| Decorators.ProfiledLinesText | DecoratorDesignPattern.py:250-257 | the outer two layers print "wrapper", with 1x then 2x |
| Decorators.CountedProfiledCall | DecoratorDesignPattern.py:242-246 | a counted benchmark-over-logging call passes the result through and prints the logging, benchmark and counter lines in that order |
| Decorators.CountedReverseString | DecoratorDesignPattern.py:250-257 | two calls of `reverse_string` under counter, benchmark and logging return what the target returns and report "wrapper has been used" 1x then 2x |
| SolidProblem.ProcessPayment | solidPrincibles.py:62-67 | the credit-card branch only for "credit_card", PayPal only for "paypal", nothing otherwise |
| SolidProblem.Rectangle.constructor | solidPrincibles.py:120-122 | a rectangle keeps its width and height |
| SolidProblem.Rectangle.Square | solidPrincibles.py:133 | a square is built by the inherited constructor, sides as given |
| SolidProblem.Rectangle.GetArea | solidPrincibles.py:130-131 | the area is zero exactly when a side is zero, and with positive sides it is at least each side |
| SolidProblem.Rectangle.SetWidth | solidPrincibles.py:124-136 | a rectangle changes only its width; a square sets both, so width == height |
| SolidProblem.Rectangle.SetHeight | solidPrincibles.py:127-140 | a rectangle changes only its height; a square sets both, so width == height |
| SolidProblem.PrintArea | solidPrincibles.py:143-146 | width 5 then height 10: a rectangle prints "Area: 50", a square "Area: 100" |
| SolidProblem.PrintAreaDemo | solidPrincibles.py:148-152 | Rectangle(2, 3) prints "Area: 50", Square(2, 2) "Area: 100" |
| SolidProblem.OldFashionedPrinter.Print | solidPrincibles.py:216-218 | printing never fails |
| SolidProblem.OldFashionedPrinter.Scan | solidPrincibles.py:220-221 | scanning always raises NotImplementedError "Scan not supported" |
| SolidProblem.OldFashionedPrinter.Fax | solidPrincibles.py:223-224 | faxing always raises NotImplementedError "Fax not supported" |
| SolidProblem.LinesDiffer | solidPrincibles.py:280-286 | an email line is never an SMS line |
| SolidProblem.SendNotification | solidPrincibles.py:288-297 | "Sending email: m" exactly for "email", "Sending SMS: m" exactly for "sms", nothing otherwise |
| SolidProblem.NotificationDemo | solidPrincibles.py:300-302 | the demo sends by email, then by SMS |
| SolidSolve.ProcessPayment | solidPrincibles.py:100-102 | the processor delegates to the payment, which runs its own branch |
| SolidSolve.PaymentAgreement | solidPrincibles.py:62-110 | both processors run the same branch for the same payment kind |
| SolidSolve.Rectangle.constructor | solidPrincibles.py:164-166 | a rectangle keeps its width and height |
| SolidSolve.Rectangle.GetArea | solidPrincibles.py:174-175 | the area is zero exactly when a side is zero, and with positive sides it is at least each side |
| SolidSolve.Rectangle.SetWidth | solidPrincibles.py:168-169 | changes only the width |
| SolidSolve.Rectangle.SetHeight | solidPrincibles.py:171-172 | changes only the height |
| SolidSolve.Square.constructor | solidPrincibles.py:178-179 | a square keeps its side |
| SolidSolve.Square.SetSide | solidPrincibles.py:181-182 | sets the side |
| SolidSolve.Square.GetArea | solidPrincibles.py:184-185 | a square's area is never negative |
| SolidSolve.SetBoth | solidPrincibles.py:168-175 | setting width then height gives their product, whatever was held before |
| SolidSolve.SquaresAgree | solidPrincibles.py:133-185 | a "Problem" square after a setter has the area of a "Solve" square with that side |
| SolidSolve.PrintAreaDemo | solidPrincibles.py:187-195 | Rectangle(5, 10) prints "Area: 50", Square(10) "Area: 100" |
| SolidSolve.SimplePrinter.Print | solidPrincibles.py:245-248 | printing never fails |
| SolidSolve.MultiFunctionDevice.Print | solidPrincibles.py:251-253 | printing never fails |
| SolidSolve.MultiFunctionDevice.Scan | solidPrincibles.py:255-257 | scanning never fails |
| SolidSolve.MultiFunctionDevice.Fax | solidPrincibles.py:259-261 | faxing never fails |
| SolidSolve.MessageSender.Send | solidPrincibles.py:313-319 | the email sender prints "Sending email: m", the SMS sender "Sending SMS: m" |
| SolidSolve.NotificationService.SendNotification | solidPrincibles.py:321-326 | always delegates to the injected sender |
| SolidSolve.NotificationAgreement | solidPrincibles.py:280-336 | the injected sender sends exactly what the "Problem" service sends for that sender's name |
| SolidSolve.NotificationDemo | solidPrincibles.py:328-336 | the email service then the SMS service send "Hello, World!" |

## Left out

- Multithreadingall.py (threads, a deliberate race, a lock, HTTP calls, sleeps) and Socket.py (TCP I/O): concurrency and network I/O.
- Process creation, `Pipe`, `Pool`, `cpu_count`, `join` and closing the pipe in Multiproccessing.py: only the sequential meaning of the workers is modelled, and the pipe is the list of messages sent.
- Multiprocessing.Receiver: a pipe without "END" makes the real receiver block forever on `recv`; the model returns `Blocked` instead.
- Timing values (`time.perf_counter`, `time.time`) are floats: benchmark and timer emit a report event naming the function, without the duration; `time.sleep` delays are dropped.
- `reverse_string`'s result: `str(reversed(...))` is the repr of an iterator object; the target is a parameter with that name whose result the model passes through.
- Decorators.Repr: string escaping (quotes or backslashes inside the string) is not modelled; a string is shown between single quotes as it is.
- Decorators.TupleRepr: stated only for the one-argument tuple the examples use; the general shape is the definition.
- Decorators.DictRepr: stated only for the empty dictionary the examples use.
- The text of the TypeError raised when a zero-argument wrapper or target gets arguments: only the kind is modelled.
- A counter can only be the outermost layer of a stack in this model, because it is an object with state and the other decorators are values.
- Lower, upper and capitalize work on ASCII letters only; Unicode case mapping is not modelled.
- The NameError demos on deleted or local names (DecoratorDesignPattern.py:27-55) are scoping illustrations.
- Printing a function object (`print(talk)`, an address) is not modelled.
- `Singleton`, the `deepcopy` / `id` demo and the Facade subsystem prints in DesignPattern.py: Python object-model quirks and print-only methods.
- `Computer.display`, `Book`, `BookPrinter`, `BookRepository` and the empty `pass` bodies in the SOLID examples: print-only or empty.
- The base classes `Animal`, `USASocketInterface`, `Flyweight`, `Shape`, `Payment`, `MessageSender`, `Printer`, `Scanner`, `FaxMachine`: abstract or empty.
- The first `Client` class of the flyweight example (DesignPattern.py:337-341) is overwritten by the second before it is ever used.
- `ComputerBuilder._computer` is set by the constructor and never read.
- Shape data records are typed: a dictionary entry missing a key (a KeyError in the client) cannot occur.
- A circle's colour is a constant: nothing in the source changes it after construction.
- AdapterPattern.ConnectDeviceToUsaSocket: its own contract only fixes the number of lines; AdapterDemo states their text.
- Decorators.CountedReverseString: the two strings are parameters; the script's two palindromes are one instance.
