/**
  Script errors (src/interpreter/errors.rs): what went wrong, the value it
  went wrong with, and the message the interpreter reports.
*/
module InterpreterErrors {
  import opened Wrappers
  import Values

  datatype ErrorType =
    | UndefinedVariable(name: string)
    | NotCallable
    | NotObject
    | PropertyNotFound
    | InvalidIndex
    | NotIndexable
    | Other(message: string)

  datatype InterpreterError = InterpreterError(target: Values.Value, errType: ErrorType)

  /** `InterpreterError::new`. */
  function New(target: Values.Value, errType: ErrorType): (e: InterpreterError)
    ensures e.target == target && e.errType == errType
  {
    InterpreterError(target, errType)
  }

  /** `InterpreterError::other`: an error described only by a message. */
  function OtherError(target: Values.Value, message: string): (e: InterpreterError)
    ensures e.target == target && e.errType == Other(message)
  {
    New(target, Other(message))
  }

  /** The words before the target in the message of each kind that shows one. */
  function Label(t: ErrorType): string
    requires !t.UndefinedVariable?
  {
    match t
    case NotCallable => "Not callable"
    case NotObject => "Not an object"
    case PropertyNotFound => "Property not found"
    case InvalidIndex => "Cannot index with"
    case NotIndexable => "Not indexable"
    case Other(m) => m
  }

  /**
    The `Display` message. Every kind but `UndefinedVariable` shows the
    target after its label, so the message is known exactly when the
    target has a message.
  */
  function Display(e: InterpreterError): (r: Option<string>)
    ensures e.errType.UndefinedVariable? ==> r == Some("Variable not found: " + e.errType.name)
    ensures !e.errType.UndefinedVariable? ==> (r.Some? <==> Values.Display(e.target).Some?)
    ensures !e.errType.UndefinedVariable? && r.Some? ==>
      exists shown :: Values.Display(e.target) == Some(shown) && r.value == Label(e.errType) + ": " + shown
  {
    match e.errType
    case UndefinedVariable(x) => Some("Variable not found: " + x)
    case _ =>
      match Values.Display(e.target)
      case None => None
      case Some(shown) => Some(Label(e.errType) + ": " + shown)
  }

  /**
    Apart from `Other`, whose message is free text, the message determines
    the kind of the error (and the name, for an undefined variable).
  */
  lemma {:induction false} MessageDeterminesKind(e1: InterpreterError, e2: InterpreterError)
    requires !e1.errType.Other? && !e2.errType.Other?
    requires Display(e1).Some? && Display(e1) == Display(e2)
    ensures e1.errType == e2.errType
  {
    var m := Display(e1).value;
    MessageShape(e1);
    MessageShape(e2);
    if e1.errType.UndefinedVariable? && e2.errType.UndefinedVariable? {
      var p := "Variable not found: ";
      assert m == p + e1.errType.name == p + e2.errType.name;
      assert e1.errType.name == m[|p|..] == e2.errType.name;
    }
  }

  /** The first and fifth characters of a message, which tell the fixed kinds apart. */
  lemma {:induction false} MessageShape(e: InterpreterError)
    requires !e.errType.Other? && Display(e).Some?
    ensures |Display(e).value| > 4
    ensures var m := Display(e).value;
      match e.errType
      case UndefinedVariable(_) => m[0] == 'V'
      case NotCallable => m[0] == 'N' && m[4] == 'c'
      case NotObject => m[0] == 'N' && m[4] == 'a'
      case PropertyNotFound => m[0] == 'P'
      case InvalidIndex => m[0] == 'C'
      case NotIndexable => m[0] == 'N' && m[4] == 'i'
      case Other(_) => true
  {
    var m := Display(e).value;
    if e.errType.UndefinedVariable? {
      var p := "Variable not found: ";
      assert m == p + e.errType.name;
      assert m[0] == p[0];
    } else {
      var shown := Values.Display(e.target).value;
      var p := Label(e.errType) + ": ";
      assert m == p + shown;
      assert m[0] == p[0] && m[4] == p[4];
    }
  }
}
