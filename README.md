# Camera recordings of the home-automation demo, in Dafny

This project models the camera-recording subsystem of a text-menu home-automation
demo (`SRC/dispositivos/grabaciones.py`). A user asks one of their devices to
record. The code checks, in order and stopping at the first failure, that the
device exists for the user, that it is switched on (`estado == "encendido"`),
and that its automation config, if it has one, is not disabled. It then records
for the requested time and builds one record: file name, start, end, duration,
reason, the device's model, and the config snapshot or the text
"Sin automatización". It appends the record to the history file
(user → device → list) and notifies the user when the recording was triggered
by motion and the config asks for notifications. Three entry points fix the
duration and reason: motion (60 s), scheduled (120 s by default) and manual
(typed by the user, 30 s when the text is not a positive integer). A viewer
shows, per device, the five most recent recordings and how many older ones
were left out.

Modules:

- `Opt` (opt.dfy): `Option`.
- `Json` (json.dfy): the values the JSON files hold, Python truthiness and `dict.get`.
- `PyInt` (pyint.dfy): Python's `int(text)` on ASCII text, including its default limit of 4300 digits, and `str(n)` with the round trip between them.
- `Grabaciones` (grabaciones.dfy): the tables, the record, the precondition chain, the append,
  the notification rule, the manual duration, the relational specification `Efecto` of one call, and
  the class `Almacen` whose field is the history file and whose methods load, save and record.
- `Conteo` (conteo.dfy): the number of records in a history; what a call does to the whole history.
- `Consulta` (consulta.dfy): the history viewer.

Behaviour of the code that is easy to miss:

- The "no automation" marker is the text "Sin automatización". An empty config `{}` is falsy in Python, so it is stored as that marker and never notifies, yet it does not block recording.
- "Off" means any `estado` other than the string "encendido", not only an explicit off value.
- A device dict without "estado" or "modelo" raises KeyError. The model returns `ClaveAusente` for it. The "modelo" lookup happens after the recording time has passed and before anything is appended or saved.
- A scheduled recording does not coerce a non-positive duration. Only the manual entry point applies the default of 30.
- Asking the viewer for the device named "" shows every device, because `if dispositivo:` is false for the empty string.

## Model

| member | source | states |
|---|---|---|
| `Grabaciones.Comprobar` | SRC/dispositivos/grabaciones.py:47-67 | Each outcome of the checks holds exactly when its own condition fails and every earlier check passed: "Dispositivo no encontrado" iff the user or the device is missing; KeyError on "estado" iff the device dict lacks it; "Dispositivo apagado" iff `estado` is not "encendido"; "Automatización desactivada" iff a config exists and its `encendido` is falsy (missing counts as true); permission iff all three pass, with the device dict and the config (if any) handed on |
| `Grabaciones.Anadir` | SRC/dispositivos/grabaciones.py:97-115 | Appending creates the user and device keys when missing and adds no other keys. The device's list becomes the old list plus the record at the end. Every other user's device table, and every other device of the same user, is unchanged |
| `Grabaciones.Cargar` | SRC/dispositivos/grabaciones.py:10-15 | A missing history file loads as the empty history, and an existing one loads as its contents |
| `Grabaciones.MensajesDistintos` | SRC/dispositivos/grabaciones.py:47-67 | The three failure texts "Dispositivo no encontrado", "Dispositivo apagado" and "Automatización desactivada" are pairwise different, so the "error" text identifies the failed check |
| `Grabaciones.DuracionManual` | SRC/dispositivos/grabaciones.py:144-150 | The manual duration is always positive. It is the typed integer when `int` accepts it and it is positive, and 30 in every other case. The other cases include empty input, text `int` rejects, and text with more than 4300 digits |
| `Grabaciones.DuracionManualPositiva` | SRC/dispositivos/grabaciones.py:146 | Typing the decimal form of a positive number of at most 4300 digits gives exactly that duration |
| `Grabaciones.DuracionManualDemasiadoLarga` | SRC/dispositivos/grabaciones.py:146-150 | Typing a number of more than 4300 digits makes `int` fail, so the duration is the default 30 |
| `Grabaciones.DuracionManualNoPositiva` | SRC/dispositivos/grabaciones.py:146-148 | Typing zero or a negative number gives the default 30 |
| `Grabaciones.Almacen.Guardar` | SRC/dispositivos/grabaciones.py:17-24 | A successful write replaces the file with the history, so loading it back gives the same history. A failed write is swallowed and leaves the file as it was |
| `Grabaciones.Almacen.Grabar` | SRC/dispositivos/grabaciones.py:26-128 | Satisfies `Efecto`. A rejected call returns the check's failure, writes nothing and does not notify. A device without "modelo" raises KeyError and writes nothing. Otherwise it returns success with the file name `email_device_stamp.mp4`, the duration and the start and end times. The file then holds the loaded history with the record appended (or is unchanged if the write failed), and it notifies exactly when `Notifica` holds |
| `Grabaciones.Almacen.GrabarPorMovimiento` | SRC/dispositivos/grabaciones.py:130-133 | Behaves as `Grabar` with duration 60 and reason "movimiento" |
| `Grabaciones.Almacen.GrabarProgramada` | SRC/dispositivos/grabaciones.py:135-138 | Behaves as `Grabar` with the given duration (120 by default) and reason "programada", and never notifies |
| `Grabaciones.Almacen.GrabarManual` | SRC/dispositivos/grabaciones.py:140-152 | Behaves as `Grabar` with the duration `DuracionManual` gives for the typed text and reason "manual", and never notifies |
| `Conteo.AnadirTotal` | SRC/dispositivos/grabaciones.py:97-115 | Appending a record raises the total number of records in the history by exactly one |
| `Conteo.ExitoAnadeUnRegistro` | SRC/dispositivos/grabaciones.py:97-128 | After a successful call whose write succeeds, the history holds exactly one more record. The new record is last in its device's list, and the records before it are the old ones. It carries the result's file name, duration, start and end, the call's reason, the device's "modelo", and the config or the "Sin automatización" marker. Every other list is unchanged |
| `Conteo.FalloNoEscribe` | SRC/dispositivos/grabaciones.py:47-67 | A call that does not succeed leaves the history file unchanged and sends no notification |
| `Conteo.CuandoNotifica` | SRC/dispositivos/grabaciones.py:118-120 | A notification is sent iff the call succeeded, the device has a non-empty config whose "notificaciones" is truthy (missing counts as false), and the reason is "movimiento" |
| `PyInt.ParseDecimal` | SRC/dispositivos/grabaciones.py:146 | `int(str(n)) == n` for every natural number of at most 4300 digits: parsing inverts decimal rendering |
| `PyInt.ParseTooLong` | SRC/dispositivos/grabaciones.py:146 | `int` refuses decimal text of more than 4300 digits |
| `PyInt.ParseNegativeDecimal` | SRC/dispositivos/grabaciones.py:146 | `int("-" + str(n)) == -n` when `str(n)` has at most 4300 digits |
| `PyInt.ParseThirty` | SRC/dispositivos/grabaciones.py:146 | The fallback text "30" parses to 30 |
| `Consulta.Vista` | SRC/dispositivos/grabaciones.py:185-205 | An empty list shows "Sin grabaciones". Otherwise the view shows the last min(5, n) recordings in their original order, each as its printed fields. Shown plus omitted is n, so n - 5 are reported as omitted when n > 5 and none otherwise |
| `Consulta.Historia` | SRC/dispositivos/grabaciones.py:161-183 | A user without history gives only the user warning. A chosen device absent from the user's history gives only the device warning. Otherwise the view covers exactly the chosen device, or every device of the user when none (or "") is chosen, each shown as `Vista` shows it |
| `Consulta.MostrarDispositivo` | SRC/dispositivos/grabaciones.py:185-205 | The loop over the recent recordings produces exactly `Vista` of the device's list |
| `Consulta.VerHistorial` | SRC/dispositivos/grabaciones.py:161-183 | The loop over the user's devices produces exactly `Historia` |
| `Consulta.AnadidaSeMuestraUltima` | SRC/dispositivos/grabaciones.py:115 | After a record is appended, viewing that device (alone or with all the user's devices) shows it as the last line. One more older recording is reported omitted exactly when the device already had five or more |

## Left out

- The recording thread (`proceso_grabacion`, lines 80-89): it only sleeps one second per unit of duration and prints progress every five. The model treats the capture as a step that takes no part in any decision.
- The clock and `strftime`: the start and end times and the stamp in the file name are opaque strings (`Reloj`). The model does not relate the end time to the start time plus the duration.
- File I/O: the history file is the field `Almacen.archivo`, and `None` means the file does not exist. The model does not cover a file that is malformed or holds records of another shape, the creation of the `data` directory, or a failed write that leaves a truncated file. A failed write only leaves the old contents (`Entorno.escrituraOk`).
- `Consulta.VerHistorial` takes the history as loaded (`Cargar` of the file) rather than reading the file itself.
- `cargar_dispositivos`, `cargar_automatizaciones` and their module tables: SRC/dispositivos/dispositivos.py and SRC/automatizaciones/automatizaciones.py are not part of this model. Their tables are inputs (`Entorno`), with every device entry and every config assumed to be a dict. A config that is not a dict (for example `null`) would raise in `.get`, and this is not modelled.
- Printed output: the messages of `grabar`, the headers and separators of the viewer, and `enviar_notificacion` (lines 154-159). The notification is the boolean `notificada`, and the viewer's output is the selection of lines it prints.
- The order in which the viewer lists a user's devices (Python dict insertion order) is not modelled. The all-devices view is a map from device to its view.
- `PyInt.ParseInt` covers ASCII text only. Python's `int` also accepts non-ASCII decimal digits and non-ASCII whitespace, and in text that holds any non-ASCII character it also strips the characters 0x1C-0x1F. The digit limit is the default 4300. A limit changed with `sys.set_int_max_str_digits` or `PYTHONINTMAXSTRDIGITS` is not modelled, and neither are Python versions before the limit existed.
- Floating-point JSON numbers are not modelled.
- The interactive menus in router.py and SRC/usuarios/usuario_menu.py are console dispatch with no logic of their own.
