/** The form validator: three ordered checks on trimmed lengths, the first
    failing check deciding the message shown. */
module Validation {
  import opened Text

  /** Minimum trimmed lengths of the three form fields. */
  const MinNameLength := 2
  const MinSurnameLength := 2
  const MinPhoneLength := 7

  /** Which field failed. */
  datatype Reason = Name | Surname | Phone

  /** The validator's verdict; the source returns `true` for `Valid` and
      reports the reason through the message area. */
  datatype Verdict = Valid | Invalid(reason: Reason)

  /** The error text shown for each reason. */
  function ReasonMessage(r: Reason): string {
    match r
    case Name => "El nombre debe tener al menos 2 caracteres."
    case Surname => "El apellido debe tener al menos 2 caracteres."
    case Phone => "El teléfono debe tener al menos 7 dígitos."
  }

  /** Checks the name, then the surname, then the phone; the first field
      whose trimmed length is too short is the reason. */
  function Validate(nombre: string, apellido: string, telefono: string): (v: Verdict)
    ensures v == Valid <==>
      |Trim(nombre)| >= MinNameLength && |Trim(apellido)| >= MinSurnameLength &&
      |Trim(telefono)| >= MinPhoneLength
  {
    if |Trim(nombre)| < MinNameLength then Invalid(Name)
    else if |Trim(apellido)| < MinSurnameLength then Invalid(Surname)
    else if |Trim(telefono)| < MinPhoneLength then Invalid(Phone)
    else Valid
  }

  /** The name check comes first: a short name is the reason whatever the
      other two fields hold. */
  lemma NameCheckWins(nombre: string, apellido: string, telefono: string)
    requires |Trim(nombre)| < MinNameLength
    ensures Validate(nombre, apellido, telefono) == Invalid(Name)
  {
  }

  /** The surname is the reason exactly when the name passes and the
      surname is short. */
  lemma SurnameCheckSecond(nombre: string, apellido: string, telefono: string)
    ensures Validate(nombre, apellido, telefono) == Invalid(Surname) <==>
      |Trim(nombre)| >= MinNameLength && |Trim(apellido)| < MinSurnameLength
  {
  }

  /** The phone is the reason exactly when name and surname both pass and
      the phone is short. */
  lemma PhoneCheckThird(nombre: string, apellido: string, telefono: string)
    ensures Validate(nombre, apellido, telefono) == Invalid(Phone) <==>
      |Trim(nombre)| >= MinNameLength && |Trim(apellido)| >= MinSurnameLength &&
      |Trim(telefono)| < MinPhoneLength
  {
  }

  /** Distinct reasons are told apart by their messages. */
  lemma ReasonMessagesDistinct(r1: Reason, r2: Reason)
    requires r1 != r2
    ensures ReasonMessage(r1) != ReasonMessage(r2)
  {
    assert |ReasonMessage(Name)| == 43;
    assert |ReasonMessage(Surname)| == 45;
    assert |ReasonMessage(Phone)| == 42;
  }

  /** Validating the already-trimmed fields, as the submit handler does,
      gives the same verdict as validating the raw fields. */
  lemma {:induction false} ValidateTrimmed(nombre: string, apellido: string, telefono: string)
    ensures Validate(Trim(nombre), Trim(apellido), Trim(telefono)) ==
            Validate(nombre, apellido, telefono)
  {
    TrimIdempotent(nombre);
    TrimIdempotent(apellido);
    TrimIdempotent(telefono);
  }

  /** Whitespace-only input counts as empty: a name made of spaces is
      rejected. */
  lemma {:induction false} BlankNameRejected(nombre: string, apellido: string, telefono: string)
    requires forall k :: 0 <= k < |nombre| ==> IsSpace(nombre[k])
    ensures Validate(nombre, apellido, telefono) == Invalid(Name)
  {
    TrimEmptyIffAllSpace(nombre);
  }

  /** Concrete verdicts: an empty name, a one-letter
      surname, a three-digit phone, and a valid entry. */
  lemma ExampleEmptyName()
    ensures Validate("", "Smith", "1234567") == Invalid(Name)
  {
  }

  lemma ExampleShortSurname(n: string, a: string, t: string)
    requires n == "Al" && a == "S" && t == "1234567"
    ensures Validate(n, a, t) == Invalid(Surname)
  {
    assert |Trim(n)| == 2 by { TrimOfClean(n); }
    assert |Trim(a)| == 1 by { TrimOfClean(a); }
  }

  lemma ExampleShortPhone(n: string, a: string, t: string)
    requires n == "Al" && a == "Smith" && t == "123"
    ensures Validate(n, a, t) == Invalid(Phone)
  {
    assert |Trim(n)| == 2 by { TrimOfClean(n); }
    assert |Trim(a)| == 5 by { TrimOfClean(a); }
    assert |Trim(t)| == 3 by { TrimOfClean(t); }
  }

  lemma ExampleValid(n: string, a: string, t: string)
    requires n == "Al" && a == "Smith" && t == "1234567"
    ensures Validate(n, a, t) == Valid
  {
    assert |Trim(n)| == 2 by { TrimOfClean(n); }
    assert |Trim(a)| == 5 by { TrimOfClean(a); }
    assert |Trim(t)| == 7 by { TrimOfClean(t); }
  }
}
