# SDDC ESP8266 example: provisioning control, callbacks and report documents

This project models the control logic of the SDDC example application for the
ESP8266 (`examples/protocols/sddc/main/sddc_esp8266_example.c`). The Dafny model
covers four parts of that file:

- **Key debounce** (`flash_key_task`). Module `Debounce`. GPIO 0 is sampled once per
  second. A low sample increments a counter and a high sample resets it. When the
  counter exceeds 3 the task fires and the counter restarts from 0.
- **SmartConfig round** (`flash_key_task`'s guard, `initialise_wifi`, `smartconfig_task`,
  `sc_callback`, `on_got_ip`). Modules `Provisioning` and `Rounds`. The state is one
  immutable record holding:
  - the key counter;
  - `smartconfig_flag`;
  - the two-bit `wifi_event_group`;
  - whether `on_got_ip` is registered;
  - the phase of the SmartConfig task;
  - the trace of platform calls made so far.

  Each atomic event has a pure step function:
  - a key sample;
  - the task start;
  - the return of the task's wait on the event group;
  - the task handling the bits that wait returned;
  - a SmartConfig status callback;
  - a got-IP notification.

  Interleaving the tasks means choosing an event sequence. An event that cannot happen
  in a state leaves that state unchanged. Examples are a wait whose watched bits are all
  clear, and a SmartConfig callback arriving while SmartConfig is not running.
  SmartConfig runs from `esp_smartconfig_start` to `esp_smartconfig_stop`. So its
  callback can still arrive after the wait has returned and before the task stops it.
- **Callback table** (`esp8266_on_*`). Module `Dispatcher`. The result of the JSON
  parse is an `Option<Json>`.
- **REPORT and INVITE data** (`esp8266_report_data_create`,
  `esp8266_invite_data_create`). Module `Document`. Both are modelled as document
  values, together with a strict decoder that serves as their partner.

The round handling comes in two variants:
- `AsWritten` is the code.
- `ClearsDoneOnStop` also clears the done bit when a round ends (see Findings).

Every lemma about rounds holds for both variants, except the two that contrast them.

Notable behaviour of the code:

- `on_got_ip` is registered in `initialise_wifi` and never unregistered. A got-IP event
  after a round has ended still sets the connected bit (`Rounds.StaleConnectedBit`).
- A round ends on the done bit alone. The connected bit is only logged
  (`Rounds.FlagClearedOnlyByDone`, `Rounds.ConnectedAloneKeepsRound`).
- A second activation during a round is silently ignored by the flag test
  (`Rounds.FiringDuringRoundIgnored`).
- Progress is the flag together with the SmartConfig task's phase. The phases are
  `Absent`, `Spawned`, `Waiting`, and `Handling` (back from the wait).

## Model

| member | source | states |
|---|---|---|
| Debounce.Sample | examples/protocols/sddc/main/sddc_esp8266_example.c:306-312 | a high sample resets the counter without firing; a sample fires exactly when it is low and the counter has reached 3, and firing leaves the counter at 0; otherwise a low sample adds one; a counter within 0..3 stays within 0..3 |
| Debounce.CountTracksLowRun | examples/protocols/sddc/main/sddc_esp8266_example.c:301-312 | starting from 0, the counter equals the length of the current run of low samples modulo 4, and a sample fires exactly when that run is a positive multiple of 4 |
| Debounce.CountBounded | examples/protocols/sddc/main/sddc_esp8266_example.c:306-312 | between samples the counter is always within 0..3 |
| Debounce.FiringNeedsFullPeriod | examples/protocols/sddc/main/sddc_esp8266_example.c:304-311 | a firing is preceded by at least 4 consecutive low samples, itself included |
| Debounce.HighNeverFires | examples/protocols/sddc/main/sddc_esp8266_example.c:306-311 | a high sample (so a low followed by a high) never fires and leaves the counter at 0 |
| Debounce.SustainedPressRefires | examples/protocols/sddc/main/sddc_esp8266_example.c:304-312 | during a press begun after a release, the n-th low sample fires exactly when n is a multiple of 4 |
| Debounce.KeyTask | examples/protocols/sddc/main/sddc_esp8266_example.c:299-312 | the sampling loop over a finite run of samples ends with the counter at the trailing low run modulo 4 and fires at exactly the samples that complete a multiple of 4 lows |
| Document.Add | examples/protocols/sddc/main/sddc_esp8266_example.c:152-158 | adding a member keeps the existing members in place and appends the new key/value after them |
| Document.ReportDataCreate | examples/protocols/sddc/main/sddc_esp8266_example.c:145-169 | the REPORT document decodes to name "IoT Pi", type "device", excl false, desc "IoT Pi", model "1", vendor "ACOINFO" |
| Document.InviteDataCreate | examples/protocols/sddc/main/sddc_esp8266_example.c:174-199 | the INVITE document decodes to the same six values |
| Document.DecodeReport | examples/protocols/sddc/main/sddc_esp8266_example.c:151-158 | any metadata survives building its report document and decoding it |
| Document.DecodeOnlyReport | examples/protocols/sddc/main/sddc_esp8266_example.c:151-158 | a document decodes to some metadata only if it is exactly that metadata's report: one key `report`, six fields in the order name, type, excl, desc, model, vendor |
| Document.AdvertisedDocumentsAgree | examples/protocols/sddc/main/sddc_esp8266_example.c:180-187 | the REPORT and INVITE documents are identical, with `report` as their one top-level key |
| Dispatcher.OnMessage | examples/protocols/sddc/main/sddc_esp8266_example.c:45-59 | a MESSAGE is accepted even when its payload does not parse |
| Dispatcher.OnUpdate | examples/protocols/sddc/main/sddc_esp8266_example.c:85-106 | an UPDATE is accepted if and only if its payload parses |
| Dispatcher.OnInvite | examples/protocols/sddc/main/sddc_esp8266_example.c:111-132 | an INVITE is accepted if and only if its payload parses |
| Dispatcher.OnInviteEnd | examples/protocols/sddc/main/sddc_esp8266_example.c:137-140 | the end of an INVITE is always accepted |
| Dispatcher.Dispatch | examples/protocols/sddc/main/sddc_esp8266_example.c:339-345 | the message-ack, message-lost and EdgerOS-lost callbacks, and only these, hand nothing back |
| Dispatcher.AnswerContract | examples/protocols/sddc/main/sddc_esp8266_example.c:45-140 | UPDATE and INVITE answer with the parse outcome; MESSAGE and INVITE end answer true; the only rejections are unreadable UPDATE or INVITE payloads |
| Dispatcher.ParseMattersOnlyForValidating | examples/protocols/sddc/main/sddc_esp8266_example.c:85-131 | whether the payload parses changes the answer for UPDATE and INVITE, and does not change it for MESSAGE |
| Provisioning.Init | examples/protocols/sddc/main/sddc_esp8266_example.c:299-303 | the key task starts with the counter at 0, the flag clear, no bits set, no SmartConfig task and no platform calls |
| Provisioning.InitialiseWifi | examples/protocols/sddc/main/sddc_esp8266_example.c:219-233 | Wi-Fi is stopped and initialised again, the disconnect and got-IP handlers are registered before the station mode is set and started, and the last call connects |
| Provisioning.ApplyCredentials | examples/protocols/sddc/main/sddc_esp8266_example.c:252-254 | LINK disconnects first, then sets exactly the delivered credentials, then connects |
| Provisioning.KeyTick | examples/protocols/sddc/main/sddc_esp8266_example.c:304-319 | the counter follows the debounce filter; the flag ends up set exactly when it was set or the sample fired; when the flag was set or the sample did not fire, only the counter changes; a firing with the flag clear initialises Wi-Fi and then spawns the SmartConfig task |
| Provisioning.BeginTask | examples/protocols/sddc/main/sddc_esp8266_example.c:280-284 | the spawned task sets the SmartConfig type, starts SmartConfig, and begins waiting |
| Provisioning.Consume | examples/protocols/sddc/main/sddc_esp8266_example.c:285-286 | the wait returns the watched bits that are set and clears them as it returns; nothing else changes yet |
| Provisioning.Handle | examples/protocols/sddc/main/sddc_esp8266_example.c:287-296 | with the done bit among the returned bits the task stops SmartConfig, clears the flag and ends, leaving the event group as it is (the corrected variant also clears the done bit); without it the task goes back to waiting and nothing else changes |
| Provisioning.OnScStatus | examples/protocols/sddc/main/sddc_esp8266_example.c:235-278 | LINK appends disconnect, set-config, connect and changes nothing else; LINK_OVER raises only the done bit; every other status changes nothing |
| Provisioning.OnGotIp | examples/protocols/sddc/main/sddc_esp8266_example.c:213-217 | once registered, the got-IP handler raises the connected bit and changes nothing else; before registration the event has no effect |
| Provisioning.Step | examples/protocols/sddc/main/sddc_esp8266_example.c:280-319 | the atomic steps are: one key-task iteration, including its Wi-Fi initialisation and spawn; the task start; the wait's return; the task's handling of the returned bits; one status callback; one got-IP event. The task starts only once spawned and the wait returns only with a watched bit set. Status callbacks arrive only while SmartConfig runs, while waiting or handling. Only key samples move the counter, and the trace only grows |
| Provisioning.Run | examples/protocols/sddc/main/sddc_esp8266_example.c:280-319 | running a sequence of events only ever extends the trace of platform calls |
| Rounds.StepPreservesInv | examples/protocols/sddc/main/sddc_esp8266_example.c:280-319 | every event preserves the invariant: counter within 0..3; flag set exactly while a SmartConfig task exists; the got-IP handler registered during a round; task spawns and SmartConfig stops alternate in the trace, with an odd count exactly while the flag is set; in the corrected variant, a done bit only while SmartConfig runs |
| Rounds.RunPreservesInv | examples/protocols/sddc/main/sddc_esp8266_example.c:280-319 | the invariant holds after any sequence of events |
| Rounds.RoundsNeverOverlap | examples/protocols/sddc/main/sddc_esp8266_example.c:290-318 | from power-up, whatever the interleaving, each round is closed by a SmartConfig stop before the next task is spawned, and the flag is set exactly while a round is open |
| Rounds.FlagClearedOnlyByDone | examples/protocols/sddc/main/sddc_esp8266_example.c:290-295 | the flag goes from set to clear only when the task handles a wait that returned the done bit, which also stops SmartConfig and ends the task |
| Rounds.FlagSetOnlyByFiring | examples/protocols/sddc/main/sddc_esp8266_example.c:311-318 | the flag goes from clear to set only on a firing low sample, which initialises Wi-Fi and spawns the task |
| Rounds.FiringDuringRoundIgnored | examples/protocols/sddc/main/sddc_esp8266_example.c:314-318 | while the flag is set, a key sample changes nothing but the counter |
| Rounds.ConnectedAloneKeepsRound | examples/protocols/sddc/main/sddc_esp8266_example.c:286-295 | waking on the connected bit alone clears it, and after handling it the task waits again with nothing else changed |
| Rounds.BothBitsEndRound | examples/protocols/sddc/main/sddc_esp8266_example.c:286-295 | waking on both bits clears both, and handling them ends the round |
| Rounds.LinkAppliesInOrder | examples/protocols/sddc/main/sddc_esp8266_example.c:247-255 | LINK applies credentials in exactly the order disconnect, set_config, connect, and changes nothing else |
| Rounds.LinkOverAlwaysDone | examples/protocols/sddc/main/sddc_esp8266_example.c:256-274 | LINK_OVER raises the done bit the same way whatever it carries: no data, either acknowledgement type, or an unknown type |
| Rounds.StaleDoneCutsNextRound | examples/protocols/sddc/main/sddc_esp8266_example.c:273-295 | as written, a LINK_OVER reported between the wait's return and the stop leaves the done bit set; the next press spawns a task that wakes on it and stops SmartConfig straight after starting it |
| Rounds.NoStaleDone | examples/protocols/sddc/main/sddc_esp8266_example.c:290-295 | with the done bit cleared at the end of a round, a freshly spawned task never finds a done bit, whatever the interleaving |
| Rounds.StaleConnectedBit | examples/protocols/sddc/main/sddc_esp8266_example.c:213-228 | the got-IP handler is never unregistered, so after a round has ended a got-IP event still sets the connected bit |
| Rounds.PressStartsRound | examples/protocols/sddc/main/sddc_esp8266_example.c:304-318 | four low samples from rest with no round open set the flag, register the got-IP handler, initialise Wi-Fi and spawn the task, leaving the counter at 0 |
| Rounds.LinkAndConnect | examples/protocols/sddc/main/sddc_esp8266_example.c:247-254 | task start, LINK, got-IP, the wait's return and its handling leave the task waiting again, with set-type, start and the credential calls in the trace |
| Rounds.LinkOverEndsRound | examples/protocols/sddc/main/sddc_esp8266_example.c:256-295 | LINK_OVER, the wait's return and its handling end the round with exactly one stop appended |
| Rounds.FullRound | examples/protocols/sddc/main/sddc_esp8266_example.c:235-318 | four low samples followed by task start, LINK, got-IP, a wake and its handling, LINK_OVER, a wake and its handling end with the flag clear, no bits, and the trace Wi-Fi init, spawn, set type, start, disconnect, set config, connect, stop |

## Findings

| source | as written | input that shows it | evidently intended | confidence | as-written member | corrected member |
|---|---|---|---|---|---|---|
| examples/protocols/sddc/main/sddc_esp8266_example.c:286-295 | SmartConfig keeps running until `esp_smartconfig_stop`, after the wait has already returned and cleared the done bit. A LINK_OVER in that window sets `ESPTOUCH_DONE_BIT` again, and nothing clears it before the next round | a press; task start; LINK_OVER; the wait returns; a second LINK_OVER; the task stops SmartConfig; another press and task start: the wait returns at once with the stale done bit and SmartConfig is stopped before any status arrives | each round begins with the done bit clear, so only its own LINK_OVER can end it | low: needs SmartConfig to report LINK_OVER twice in one round; not executed | Rounds.StaleDoneCutsNextRound | Rounds.NoStaleDone |

## Left out

- Task creation, `vTaskDelay`, `vTaskDelete` and the blocking of `xEventGroupWaitBits` are not modelled as such. They become the choice of the next atomic event. Unsynchronised access to `smartconfig_flag` from two tasks is a concurrency question outside this sequential model.
- JSON parsing, printing and freeing, and the JSON text, are left out. A parse is an `Option<Json>`; the builders produce document values. A NULL result from `cJSON_Print` is not modelled.
- Platform calls are only partly modelled:
  - The Wi-Fi, TCP/IP adapter and SmartConfig calls made by `initialise_wifi`, `sc_callback` and `smartconfig_task` appear only as opaque actions in the trace.
  - `gpio_get_level` is the input of a key-sample event.
  - The start-up calls in `app_main` (`nvs_flash_init`, `esp_netif_init`, the default event loop, `example_connect`, the event group's creation) do not appear at all.
  - `ESP_ERROR_CHECK` aborting on a failed call is not modelled: every checked call is taken to succeed.
- The wake-up of `xEventGroupWaitBits` is looser in the model than in FreeRTOS. FreeRTOS wakes the waiter, and clears the bits, inside the `xEventGroupSetBits` call that satisfies it. The model lets the wait return at any later step, so it may collect both bits at once. The model therefore allows every interleaving FreeRTOS allows, and some more.
- Rounds.RoundsNeverOverlap: takes the `xTaskCreate` call at line 317 to succeed. Its result is ignored, so after a failed spawn `smartconfig_flag` stays 1 with no task, and every later press is ignored.
- Dispatcher.OnMessage: "accepted even when its payload does not parse" takes `sddc_printf` to tolerate the NULL that `cJSON_Print(NULL)` passes to `%s` at lines 53-54. In C this is undefined behaviour.
- `on_wifi_disconnect`'s switch to 802.11 b/g/n is left out. It is a platform setting with no effect on the modelled state.
- The SDDC engine is left out: `sddc_create`, `sddc_run`, the setters (other than the callback routing modelled by `Dispatcher.Dispatch`), the token, the uid and `sddc_destroy`. The supervisor's endless restart loop is left out too, and the destroy after it is unreachable.
- `app_main` start-up, logging and `sddc_printf` are left out. This includes the per-acknowledgement-type log lines of LINK_OVER and the "Start SmartConfig...." message printed on every firing.
- Multiple registration of the event handlers is not modelled. `initialise_wifi` registers them again on every round; the model keeps one registered/not-registered flag, and setting a bit twice has the same effect as setting it once.
