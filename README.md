# Appointment booking with an NVIDIA NIM agent: a Dafny model

The script `book_appointment.py` books an appointment on a website by handing a
browser-automation agent a natural-language task. This project models the
script's deterministic core and proves properties about it:

- **Task compiler** (`task_compiler.dfy`, module `TaskCompiler`). The f-string
  that becomes the agent's task: a fixed template around the booking URL, which
  appears twice, and the "Appointment Information" block. That block is
  `json.dumps(appointment_data.model_dump(exclude_none=True), indent=2)`.
- **Appointment record** (`appointment_data.dfy`, module `AppointmentModel`).
  The pydantic `AppointmentData` model: four required and thirteen optional
  string fields. It includes `model_dump(exclude_none=True)` as an ordered list
  of key/value pairs, and the validation `AppointmentData(**pairs)` that reads
  such a list back.
- **JSON text** (`json_text.dfy`, module `JsonText`). The output of `json.dumps`
  with `indent=2` and the default `ensure_ascii=True`, for an object of string
  values:
  - the short escapes;
  - `\uXXXX` with lower-case hex;
  - surrogate pairs above U+FFFF;
  - the `{}` form for an empty object.

  It also holds a reader for that text, which serves as the dump's partner in
  the round-trip lemmas.
- **Result extractor** (`result_extractor.dfy`, module `ResultExtractor`). How
  the agent run's outcome becomes an `AppointmentResult`:
  - a structured output is returned as is;
  - otherwise the run's success signal and final text are wrapped;
  - an exception becomes a failed result with the text "Error during
    appointment booking: …".
- **Booking call** (`booking.dfy`, class `Booking.Booker`). `book_appointment`
  as a method on a class:
  - the credential check comes first;
  - then it configures the client and browser, compiles the task and builds
    the agent;
  - then it turns the run into a result;
  - `agent.close()` is counted in the `closeCount` field on every path that
    built an agent.
- **Client configuration** (`nvidia_nim.dfy`, module `NvidiaNim`). The
  `ChatNvidiaNIM` dataclass: its defaults and its `provider` and `name`
  properties.

Inputs the program reads from its environment are parameters here:
- the `NVIDIA_API_KEY` variable is an `Option<string>`;
- the outcome of `agent.run` is a `RunOutcome` value (structured output,
  unstructured history, or an exception's `str(e)`).

## Model

| member | source | states |
|---|---|---|
| AppointmentModel.FieldValues | book_appointment.py:32-58 | The record has seventeen field values in declaration order, and the four identity fields are always present. |
| AppointmentModel.PresentFieldsExact | book_appointment.py:119 | In the dump, every field name is bound to exactly that field's value: an unset field to nothing, a set one to its value. Every pair is a declared field with its own value, and the keys come in strictly increasing declaration order. |
| AppointmentModel.OptionalFieldOmittedIffNone | book_appointment.py:42-58 | A field's key is in the dump if and only if the field is set. |
| AppointmentModel.RequiredFieldsLead | book_appointment.py:36-39 | The dump always starts with `first_name`, `last_name`, `email`, `phone`, holding the record's values. |
| AppointmentModel.FromFieldsRoundTrip | book_appointment.py:32-58 | Validating a record's dump as an `AppointmentData` gives the record back. |
| AppointmentModel.PresentFieldsInjective | book_appointment.py:119 | Two records have the same dump if and only if they are equal. |
| AppointmentModel.LookupNeedsKey | book_appointment.py:32-58 | A key that is absent from the pairs reads as unset. |
| JsonText.Hex4 | book_appointment.py:119 | A `\u` escape body is exactly four characters, each a lower-case hexadecimal digit, as `'{0:04x}'` writes them. |
| JsonText.HexDigitRoundTrip | book_appointment.py:119 | Reading a written hex digit gives its value back. |
| JsonText.Hex4RoundTrip | book_appointment.py:119 | Reading four written hex digits gives back any value below 0x10000. |
| JsonText.ShortEscape | book_appointment.py:119 | No short escape uses the letter `u`. |
| JsonText.ShortEscapeRoundTrip | book_appointment.py:119 | Each short escape (`\"`, `\\`, `\n`, `\r`, `\t`, `\b`, `\f`) reads back as its character. |
| JsonText.EscapeChar | book_appointment.py:119 | A written character is never empty and never starts with a bare quote, so it cannot end a string literal. |
| JsonText.HighSurrogate | book_appointment.py:119 | The first half of a character above U+FFFF is a high surrogate. |
| JsonText.LowSurrogate | book_appointment.py:119 | The second half of a character above U+FFFF is a low surrogate. |
| JsonText.UnicodeEscapeRoundTrip | book_appointment.py:119 | A non-surrogate character below U+10000 written as `\uXXXX` reads back as itself. |
| JsonText.SurrogatePairRoundTrip | book_appointment.py:119 | A character above U+FFFF becomes a high and a low surrogate, which read back as the character. |
| JsonText.EscapeCharRoundTrip | book_appointment.py:119 | Reading any written character gives it back and leaves the following text untouched. |
| JsonText.EscapeRoundTrip | book_appointment.py:119 | Reading an escaped string up to its closing quote gives the string back. |
| JsonText.QuoteRoundTrip | book_appointment.py:119 | Reading a written string literal gives back the string and the text after it. |
| JsonText.MemberRoundTrip | book_appointment.py:119 | Reading a written `"key": "value"` member gives back the pair and the text after it. |
| JsonText.MembersRoundTrip | book_appointment.py:119 | Reading the written members of a non-empty object, up to the closing brace, gives back all pairs in order. |
| JsonText.ObjectRoundTrip | book_appointment.py:119 | Reading back a written object, empty or not, gives the same pairs in the same order. |
| JsonText.ObjectInjective | book_appointment.py:119 | Two pair lists are written the same if and only if they are equal. |
| JsonText.PlainEscapesToItself | book_appointment.py:119 | Printable ASCII without quote or backslash is written unchanged. |
| JsonText.EscapeLength | book_appointment.py:119 | Escaping never shortens a string, and it keeps the length exactly when the string is printable ASCII without quote or backslash. |
| JsonText.VerbatimIffPlain | book_appointment.py:119 | A string is written unescaped if and only if it is printable ASCII without quote or backslash. |
| JsonText.NonAsciiNotVerbatim | book_appointment.py:119 | A string holding any character above `~` is never written verbatim. |
| JsonText.NonAsciiIsEscaped | book_appointment.py:119 | One example: `José` is written `Jos\u00e9`. |
| TaskCompiler.TaskNamesUrlTwice | book_appointment.py:115-122 | The goal sentence and instruction 1 both end in the booking URL. The information block lies between them, at a position that depends on the URL alone. |
| TaskCompiler.RenderLayout | book_appointment.py:115-158 | Any template rendered around a URL and a block holds the goal up to the URL, then the block, then instruction 1 up to the URL, in that order. |
| TaskCompiler.TaskRoundTrip | book_appointment.py:115-158 | The task text for a URL determines the appointment record: the record can be read back out of it. |
| TaskCompiler.TaskInjective | book_appointment.py:115-158 | For one URL, two records give the same task text if and only if they are equal. |
| TaskCompiler.BlockHoldsExactlySetFields | book_appointment.py:118-119 | Read as JSON, the information block binds each field name to that field's value, binds no key to an unset field, and lists the keys in declaration order without repeats. |
| TaskCompiler.SetFieldAppears | book_appointment.py:119 | Each set field appears in the task text as its JSON member: quoted key, then quoted and escaped value. |
| TaskCompiler.SetPlainValueAppears | book_appointment.py:119 | A set value made of printable ASCII without quote or backslash appears verbatim in the task text. |
| TaskCompiler.VinKeyAlwaysNamed | book_appointment.py:150 | Every task text contains `vehicle_vin`, from the field mapping tips, whether or not the VIN is set. |
| ResultExtractor.SignalOrFalse | book_appointment.py:181 | `is_successful() or False` is true exactly when the signal is `True`. |
| ResultExtractor.TextOr | book_appointment.py:182 | `final_result or fallback` is always one of the two candidates, and it is never empty when the fallback is not. It is the final text when that is non-empty, and the fallback when the text is `None` or empty. |
| ResultExtractor.Extract | book_appointment.py:171-189 | The priority rule, in full. A structured output is returned unchanged. Without one, success holds exactly when the signal is `True`, and the message is the final text when that is non-empty, otherwise the fixed sentence. An exception gives a failed result whose message is the prefix followed by the exception text. A result built by the code sets no confirmation detail and has a non-empty message. |
| ResultExtractor.BuiltResultsKeepInvariant | book_appointment.py:178-189 | Every result the code builds itself satisfies "failure implies no confirmation number, date or time". |
| ResultExtractor.StructuredNotChecked | book_appointment.py:175-176 | A structured output is not re-validated: a failed output that carries a confirmation number and an empty message is returned as is. |
| ResultExtractor.SameResultFromStructuredAndFault | book_appointment.py:175-189 | A structured output equal to an error result cannot be told apart from a real exception. |
| NvidiaNim.CredentialOnlyDefaults | llm_nvidia_nim.py:31-36 | A client given only a credential has model `qwen/qwen3-next-80b-a3b-instruct`, the NIM base URL, temperature 0.6, top_p 0.7 and 4096 completion tokens. |
| NvidiaNim.OverridesTakeEffect | llm_nvidia_nim.py:31-36 | An explicit model, base URL, temperature, top_p or token limit replaces the default, and an absent one leaves the default. The credential is kept as given. |
| NvidiaNim.ProviderIsConstant | llm_nvidia_nim.py:38-40 | The provider is `nvidia-nim` for every configuration. |
| NvidiaNim.NameExtendsProvider | llm_nvidia_nim.py:42-44 | The name is the provider, a slash and the model, so it starts with the provider. |
| NvidiaNim.NameOnlyFromModel | llm_nvidia_nim.py:42-44 | The model can be read back from the name. Two clients have the same name if and only if they have the same model. |
| NvidiaNim.BookingClientIsDefault | book_appointment.py:97-103 | The client `book_appointment` builds is exactly the default client for its credential. |
| Booking.CredentialPresent | book_appointment.py:93-95 | The credential passes `if not api_key` exactly when it is set and non-empty. |
| Booking.AgentTaskCarriesData | book_appointment.py:97-168 | The agent is given the compiled task, from which the record can be read back, the default NIM client, and a browser with security left enabled. |
| Booking.Booker.BuildAgent | book_appointment.py:161-168 | Building an agent records its specification and counts it, without closing anything. |
| Booking.Booker.CloseAgent | book_appointment.py:191-193 | The clean-up closes exactly one agent and changes nothing else. |
| Booking.Booker.BookAppointment | book_appointment.py:71-193 | Without a usable credential the call refuses with the fixed message and changes nothing. With one, it builds exactly the agent the inputs determine and returns the extracted result of the run. It closes that agent exactly once on each of the three result paths, so every agent built is closed. |
| Booking.Booker.BookAppointmentWithDefaults | book_appointment.py:71-77 | A call with only the URL and the record behaves as one with 50 steps, a visible browser and vision on. |

## Left out

- The agent run itself (`agent.run`, the browser, the tools, the language
  model) is foreign code. Its outcome is a parameter of `BookAppointment`, and
  the step budget is only recorded in the agent's specification.
- `os.getenv` and `load_dotenv` are environment reads. The credential is a
  parameter.
- `main`, argument parsing, reading the data file, and printing the result are
  left out. They are input and output around the core.
- `async`/`await` scheduling is left out: the model is sequential.
- Exceptions raised by `agent.close()` itself, or while the client, browser or
  agent are being built, are left out. So are `BaseException`s that
  `except Exception` does not catch, such as cancellation. In the model, each
  of these steps always succeeds.
- pydantic's rejection of non-string values (numbers, booleans, nested
  objects) for the string fields is left out. The model reads string-valued
  objects only.
- A Python `str` can hold a lone surrogate code point, for example one read
  from `"\ud800"` in the data file, and `json.dumps` writes it back as
  `\ud800`. A Dafny `char` cannot hold one, so such values are outside the
  model of the writer and the reader.
- The agent is also given `tools=Tools()` and
  `output_model_schema=AppointmentResult`. These are the same on every call
  and are not recorded in `AgentSpec`.
- `ChatNvidiaNIM` inherits many `ChatOpenAI` fields. Only the five it
  overrides and `api_key` are modelled.
- Temperature and top_p are Python floats. They are kept as the exact decimals
  0.6 and 0.7, not as binary floating point.
- `test_nvidia_nim.py` calls the live service. It is not part of this model.
- The JSON reader parses only objects whose members are string-valued, in the
  layout `indent=2` writes. It is a partner for the round trip, not a general
  JSON parser.

### Where the code differs from what a caller might expect

The model follows the code in each of these cases.

- **Results are not re-validated.** A natural result invariant is:
  `success=false` implies no confirmation number, date or time. The code keeps
  it only for results it builds itself. A structured output is returned as is
  (`StructuredNotChecked`).
- **Error text is not sanitized.** The failed result's message embeds the raw
  `str(e)` after the prefix, whatever the exception says (`Extract`).
- **Identity fields may be blank.** The model accepts the empty string for the
  four identity fields, because pydantic does: `str` with `Field(...)` only
  requires presence.
- **The template always contains `vehicle_vin`.** A task for a record without
  vehicle data still contains that text, because the fixed field mapping tips
  always name the key (`VinKeyAlwaysNamed`). Unset fields are still absent
  from the information block itself (`BlockHoldsExactlySetFields`).
- **Set values do not always appear verbatim.** With `ensure_ascii=True`, a
  value holding a non-ASCII character, a quote, a backslash or a control
  character is escaped in the task text: `José` appears as `Jos\u00e9`
  (`NonAsciiIsEscaped`). Within its JSON member, a value is written unescaped
  exactly when it is printable ASCII without quote or backslash
  (`VerbatimIffPlain`). Such a value therefore appears verbatim in the task
  text (`SetPlainValueAppears`). Every set value appears as its escaped JSON
  member (`SetFieldAppears`).
