/**
  The English-to-Spanish dictionary for backend validation messages. The
  table is a static object shared by every caller: `translateError` looks a
  message up and falls back to the message itself, `addTranslation`
  overwrites one entry.
 */
module ErrorTranslator {

  /** The table the dictionary starts with. */
  function InitialTable(): map<string, string> {
    map[
      "The nombre field must be defined" := "El nombre es requerido",
      "The apellido field must be defined" := "El apellido es requerido",
      "The genero field must be defined" := "El género es requerido",
      "The edad field must be defined" := "La edad es requerida",
      "The fullName field must be defined" := "El nombre  es requerido",
      "The email field must be a valid email address" := "El email debe ser un correo electrónico válido",
      "The apellido field format is invalid" := "El formato del apellido no es válido",
      "The nombre field format is invalid" := "El formato del nombre no es válido",
      "The edad field must be a number" := "La edad debe ser un número",
      "The email has already been taken" := "Este email ya ha sido registrado",
      "The password field must have at least 8 characters" := "La contraseña debe tener al menos 8 caracteres",
      "The nombre field must have at least 2 characters" := "El nombre debe tener al menos 2 caracteres",
      "The apellido field must have at least 2 characters" := "El apellido debe tener al menos 2 caracteres",
      "The email field must be defined" := "El email es requerido",
      "The edad field must be at least 0" := "La edad no puede ser menor a 0",
      "The password field must be defined" := "La contraseña es requerida",
      "The nombre field must be at least 3 characters" := "El nombre debe tener al menos 3 caracteres",
      "The email field must be a valid email" := "El email debe tener un formato válido",
      "The edad field must not be greater than 100" := "La edad no puede ser mayor a 100"
    ]
  }

  /** `translations[message] || message`: an empty translation counts as missing. */
  function Translate(table: map<string, string>, message: string): (r: string)
    ensures message in table && table[message] != "" ==> r == table[message]
    ensures message !in table || table[message] == "" ==> r == message
    ensures r == "" ==> message == ""
  {
    if message in table && table[message] != "" then table[message] else message
  }

  function Add(table: map<string, string>, english: string, spanish: string): (t: map<string, string>)
    ensures t.Keys == table.Keys + {english}
    ensures english in t && t[english] == spanish
    ensures forall k :: k in table && k != english ==> t[k] == table[k]
  {
    table[english := spanish]
  }

  /** After adding a non-empty translation, looking the key up yields it, overwriting any earlier one. */
  lemma TranslateAfterAdd(table: map<string, string>, english: string, spanish: string)
    requires spanish != ""
    ensures Translate(Add(table, english, spanish), english) == spanish
  {
  }

  /** Adding an empty translation makes the key fall back to itself. */
  lemma TranslateAfterAddEmpty(table: map<string, string>, english: string)
    ensures Translate(Add(table, english, ""), english) == english
  {
  }

  /** Adding one entry leaves every other message's translation as it was. */
  lemma AddKeepsOthers(table: map<string, string>, english: string, spanish: string, other: string)
    requires other != english
    ensures Translate(Add(table, english, spanish), other) == Translate(table, other)
  {
  }

  /** Adding the same entry twice leaves the same table as adding it once. */
  lemma AddIdempotent(table: map<string, string>, english: string, spanish: string)
    ensures Add(Add(table, english, spanish), english, spanish) == Add(table, english, spanish)
  {
  }

  /** Every message of the initial table has a non-empty translation. */
  lemma InitialTableTranslates(message: string)
    requires message in InitialTable()
    ensures Translate(InitialTable(), message) == InitialTable()[message]
    ensures Translate(InitialTable(), message) != message
  {
  }

  /** The static dictionary object. */
  class Translator {
    var translations: map<string, string>

    constructor ()
      ensures translations == InitialTable()
    {
      translations := InitialTable();
    }

    function TranslateError(message: string): (r: string)
      reads this
      ensures message in translations && translations[message] != "" ==> r == translations[message]
      ensures message !in translations || translations[message] == "" ==> r == message
    {
      Translate(translations, message)
    }

    method AddTranslation(english: string, spanish: string)
      modifies this`translations
      ensures translations == Add(old(translations), english, spanish)
      ensures spanish != "" ==> TranslateError(english) == spanish
      ensures forall m :: m != english ==> TranslateError(m) == old(TranslateError(m))
    {
      translations := translations[english := spanish];
    }
  }
}
