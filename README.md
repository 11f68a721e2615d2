# Blockchain gas-fee converter: a Dafny model

This project models the core of a small Streamlit app that converts Gwei
and Satoshis into USD and IDR, and Satoshis to and from Gwei. It uses a
live price from a public API when one is available and a manually
entered price otherwise. Everything in the app lives in one script,
`streamlit_app.py`. The model has four parts:

- `Units` (in `units.dfy`): the unit primitives `gwei_to_eth` and
  `sats_to_btc`. It also holds the multiplications by the same constants
  with which the cross form turns ether back into Gwei and bitcoin back
  into Satoshis. `Options` holds the `Option` type, which stands for
  Python's `None`.
- `Forms` (in `forms.dfy`): the submit rule of each form as a pure
  function of the session values. The four rules are Gwei to USD/IDR,
  Sats to USD/IDR, and the two directions of the Sats/Gwei cross form.
  Each rule checks the price or prices first, then the amount, and only
  then computes. Python's `/` is modelled as `Divide`, whose `None` stands
  for `ZeroDivisionError`. The cross forms' `except ZeroDivisionError`
  branch becomes the outcome `ZeroPriceError`, and the model proves that
  it is never produced.
- `Session` (in `session.dfy`): `st.session_state` as a class over a map
  from key to value. A map is used because an absent key and a key that
  holds `None` are different things. The module covers:
  - first-run initialisation, which fills only the missing keys;
  - the conversion-type radio;
  - for each form, storing the widget values step by step (live price or
    seeded manual price, then rate, then amount), followed by the submit
    block;
  - one full rerun of the script (`Run`).

All quantities are Dafny `real`s, so every result is stated exactly.

The price fetch is an input to the model. A `PriceField` carries what the
fetch returned (`None` when it failed) and what the user did with the
widget: `Keep` its initial value, or `Enter` another one. The widgets'
`min_value` bounds are preconditions on those edits. The session
invariant `Consistent` records what those bounds imply for stored values:
the rate is at least 1 and the amounts are at least 0.

## Model

| member | source | states |
|---|---|---|
| `Units.GweiToEth` | streamlit_app.py:30-32 | The result times 10^9 is the input. The result is positive exactly when the input is. A positive input gives a smaller positive result. |
| `Units.SatsToBtc` | streamlit_app.py:34-36 | The result times 10^8 is the input. The result is positive exactly when the input is. A positive input gives a smaller positive result. |
| `Units.EthToGwei` | streamlit_app.py:285 | The cross form's last step, ether to Gwei, is undone by `GweiToEth`. |
| `Units.BtcToSats` | streamlit_app.py:315 | The cross form's last step, bitcoin to Satoshis, is undone by `SatsToBtc`. |
| `Units.GweiRoundTrip` | streamlit_app.py:30-32 | Converting Gwei to ether and back gives the original amount. |
| `Units.SatsRoundTrip` | streamlit_app.py:34-36 | Converting Satoshis to bitcoin and back gives the original amount. |
| `Forms.Divide` | streamlit_app.py:284 | Python division fails (`ZeroDivisionError`) exactly when the divisor is 0. Otherwise the quotient times the divisor is the dividend. |
| `Forms.GweiSubmit` | streamlit_app.py:117-125 | A missing or non-positive ETH price gives the price error, whatever the amount. With a valid price, an amount ≤ 0 gives the amount error. A result is produced only when both are valid. Then eth·10^9 = gwei, usd·10^9 = gwei·price and idr = usd·rate. With rate ≥ 1, idr ≥ usd > 0. |
| `Forms.SatsSubmit` | streamlit_app.py:181-189 | The same as the Gwei form, for the BTC price and Satoshis: the price error wins over the amount error. On success btc·10^8 = sats, usd·10^8 = sats·price and idr = usd·rate. With rate ≥ 1, idr ≥ usd > 0. |
| `Forms.SatsToGweiSubmit` | streamlit_app.py:272-290 | The prices error occurs exactly when either price is missing or ≤ 0. Next comes the amount error, for sats ≤ 0. The `ZeroDivisionError` outcome never occurs. On success usd·10^8 = sats·btcPrice, idr = usd·rate and gwei·ethPrice = usd·10^9. |
| `Forms.GweiToSatsSubmit` | streamlit_app.py:302-320 | The mirror of Sats→Gwei: the prices error, then the amount error. The `ZeroDivisionError` outcome never occurs. On success usd·10^9 = gwei·ethPrice, idr = usd·rate and sats·btcPrice = usd·10^8. |
| `Forms.SatsGweiRoundTrip` | streamlit_app.py:272-320 | Take the Gwei that Sats→Gwei gives and feed it to Gwei→Sats at the same prices and rate. The result is the original Satoshi amount, with the same USD and IDR values. |
| `Forms.GweiSatsRoundTrip` | streamlit_app.py:272-320 | Take the Satoshis that Gwei→Sats gives and feed them to Sats→Gwei at the same prices and rate. The result is the original Gwei amount, with the same USD and IDR values. |
| `Forms.CrossAgreesWithFiatForms` | streamlit_app.py:117-290 | For a Satoshi amount, the cross form shows the USD and IDR that the Sats form shows. The Gwei form, given the Gwei amount the cross form produced, shows them too. |
| `Forms.GweiExample` | streamlit_app.py:122-125 | 100 Gwei at 2000 USD/ETH and 16200 IDR/USD is 0.0000001 ETH, 0.0002 USD and 3.24 IDR. |
| `Forms.SatsExample` | streamlit_app.py:186-189 | 100 Satoshis at 30000 USD/BTC and 16200 IDR/USD is 0.000001 BTC, 0.03 USD and 486 IDR. |
| `Forms.CrossExample` | streamlit_app.py:279-285 | 1000 Satoshis at 30000 USD/BTC and 2000 USD/ETH is 0.3 USD, 4860 IDR and 150000 Gwei. |
| `Session.Default` | streamlit_app.py:45-59 | Each key's first-run value fits that key: the mode, both prices `None`, rate 16200.0, and both amounts 0.0. |
| `Session.WithDefault` | streamlit_app.py:48-49 | One initialisation step adds its key and no other. |
| `Session.WithDefaultAt` | streamlit_app.py:48-49 | One initialisation step keeps every present key's value, adds only its own key, and gives that key its default when it was missing. |
| `Session.Initialized` | streamlit_app.py:47-59 | After initialisation every key is present. |
| `Session.InitializedAt` | streamlit_app.py:47-59 | A key that was present keeps its value. A missing key gets its default. |
| `Session.InitializedValid` | streamlit_app.py:47-59 | Initialising a session whose present keys are well-typed gives a complete, well-typed session. |
| `Session.InitializedIdempotent` | streamlit_app.py:47-59 | Initialising twice equals initialising once. |
| `Session.InitializedKeepsCompleteSession` | streamlit_app.py:47-59 | On every rerun after the first, initialisation changes nothing. |
| `Session.FirstRunDefaults` | streamlit_app.py:45-59 | An empty session becomes exactly {mode 'Gwei to USD/IDR', ETH and BTC price `None`, rate 16200.0, Gwei 0.0, Sats 0.0}. |
| `Session.NumberInput` | streamlit_app.py:97-113 | A numeric widget returns its initial value when the user leaves it alone, and the entered value otherwise. |
| `Session.ManualSeed` | streamlit_app.py:89 | The manual price widget's initial value is the last session price when there is one, and the default (2000.00 at lines 89 and 237, 30000.00 at lines 153 and 216) when it is `None`. |
| `Session.PriceInput` | streamlit_app.py:77-93 | The price a form stores is the user's entry if any; otherwise the live price when the fetch succeeded, and the manual seed when it failed. |
| `Session.StoredPrice` | streamlit_app.py:78-93 | Assigning a price widget's value to the session sets that key to the price input seeded from its old price, adds no other key and changes no other key. |
| `Session.StoredNumber` | streamlit_app.py:97-113 | Assigning a rate or amount widget's value sets that key to the widget's value, seeded from its old number, adds no other key and changes no other key. |
| `Session.AfterForm` | streamlit_app.py:72-113 | A form's widgets add exactly the form's keys and leave every key the form does not write as it was. |
| `Session.Rerun` | streamlit_app.py:47-320 | One run of the script leaves every key present, with the picked mode stored as the selected conversion. |
| `Session.Display` | streamlit_app.py:117-320 | Nothing is shown exactly when the form was not submitted; a submitted Gwei or Sats form shows a USD/IDR outcome, and a submitted cross form shows a cross outcome. |
| `Session.RateAfter` | streamlit_app.py:97-104 | The rate stored after a sequence of reruns is the starting rate or one of the rates the user entered. |
| `Session.UntouchedPriceField` | streamlit_app.py:77-93 | A price widget left untouched holds the live price when the fetch succeeded. Otherwise it holds the last session price if that is not `None`, and the default price if it is. |
| `Session.ManualPriceIsValid` | streamlit_app.py:86-93 | After a failed fetch the manual entry is at least 0.01, so it passes the price check. |
| `Session.StoredPriceValid` | streamlit_app.py:75-93 | Storing a price keeps the session complete and well-typed. |
| `Session.StoredNumberValid` | streamlit_app.py:97-113 | Storing a number that the widget's `min_value` accepts keeps the session complete and well-typed. |
| `Session.RerunValid` | streamlit_app.py:47-320 | A rerun whose widgets accept their inputs leaves a complete, well-typed session: rate ≥ 1 and amounts ≥ 0. |
| `Session.RerunWritesOnly` | streamlit_app.py:47-320 | A rerun writes only the mode and the keys of the chosen form; every other key keeps its initialised value. |
| `Session.AfterFormPriceAt` | streamlit_app.py:75-93 | The price a form stores is its price field's value, seeded from the price stored before; the rate and amount widgets after it leave the price alone. |
| `Session.RerunPriceAt` | streamlit_app.py:75-93 | The price a rerun stores is the price field's value, seeded from the initialised session: live price or its edit, else the last price or the default. |
| `Session.FailedFetchNeverRejectsPrice` | streamlit_app.py:85-93 | When the fetch failed, a submitted form never shows the price error (for the cross form, when both fetches failed). |
| `Session.RerunIdrNeverBelowUsd` | streamlit_app.py:97-129 | After one rerun from a well-typed session, every result shown has IDR ≥ USD > 0. |
| `Session.RunsStayConsistent` | streamlit_app.py:47-320 | However many reruns a browser session goes through, its stored values stay well-typed: rate ≥ 1 and amounts ≥ 0. |
| `Session.IdrNeverBelowUsd` | streamlit_app.py:97-320 | In every rerun of a browser session that starts empty, every result shown has IDR ≥ USD > 0. |
| `Session.RateStaysAtLeastMinimum` | streamlit_app.py:97-104 | Starting from a rate ≥ 1, the stored rate stays ≥ 1 through any sequence of reruns whose rate entries the widget's `min_value=1.0` accepts. |
| `Session.UntouchedRateKeepsSeed` | streamlit_app.py:97-104 | Reruns that leave the rate widget alone keep the stored rate, because the widget is seeded from it. |
| `Session.LastEnteredRateWins` | streamlit_app.py:97-104 | After a sequence of reruns, the stored rate is the last rate the user entered, in whichever form. |
| `Session.RerunRate` | streamlit_app.py:97-104 | One rerun stores the rate widget's value, seeded from the rate of the initialised session. |
| `Session.RunsRate` | streamlit_app.py:47-320 | After one or more reruns the stored rate is `RateAfter` of the initialised rate: the rate carries over between reruns and between the three forms, which share its key. |
| `Session.SessionRate` | streamlit_app.py:45-59 | In a session that starts empty, the stored rate is 16200.0 until the user enters another one, and then the last rate entered. |
| `Session.SessionState.Init` | streamlit_app.py:47-59 | The session afterwards is `Initialized` of the session before, and it is valid. |
| `Session.SessionState.InitKey` | streamlit_app.py:48-49 | A key is set to its default only when it is missing. |
| `Session.SessionState.ChooseConversion` | streamlit_app.py:62-66 | The radio's choice replaces the selected mode, so `Selected()` is the mode picked. Nothing else changes. |
| `Session.SessionState.SubmitGwei` | streamlit_app.py:117-125 | The imperative submit block computes exactly `GweiSubmit` of the stored price, rate and amount. |
| `Session.SessionState.SubmitSats` | streamlit_app.py:181-189 | The imperative submit block computes exactly `SatsSubmit` of the stored values. |
| `Session.SessionState.SubmitSatsToGwei` | streamlit_app.py:272-290 | The try/except block computes exactly `SatsToGweiSubmit` of the stored values. |
| `Session.SessionState.SubmitGweiToSats` | streamlit_app.py:302-320 | The try/except block computes exactly `GweiToSatsSubmit` of the stored values. |
| `Session.SessionState.StorePrice` | streamlit_app.py:75-93 | The stored price becomes `StoredPrice` of the old session: the live price or its edit, or after a failed fetch the manual entry seeded by the last stored price or the default (2000.00 for ETH, 30000.00 for BTC). That manual entry is ≥ 0.01. The session stays valid. |
| `Session.SessionState.StoreNumber` | streamlit_app.py:97-113 | A rate or amount widget stores its value, seeded from the value stored under its key, as `StoredNumber` of the old session. The session stays valid. |
| `Session.SessionState.GweiForm` | streamlit_app.py:72-129 | The new session is `AfterForm` of the old one: ETH price, then rate, then Gwei amount are stored, in script order. When submitted, the form shows `GweiSubmit` of the new values. After a failed fetch it never shows the price error. |
| `Session.SessionState.SatsForm` | streamlit_app.py:136-193 | The new session is `AfterForm` of the old one: BTC price, then rate, then Satoshi amount are stored. When submitted, the form shows `SatsSubmit` of the new values. After a failed fetch it never shows the price error. |
| `Session.SessionState.CrossForm` | streamlit_app.py:200-320 | The new session is `AfterForm` of the old one: BTC price, ETH price, rate and the chosen direction's amount are stored. When submitted, the form shows that direction's rule. It never shows the zero-division message. When both fetches failed, it never shows the prices error. |
| `Session.SessionState.Run` | streamlit_app.py:47-320 | A rerun leaves the session valid and equal to `Rerun` of the old one (initialise, record the chosen mode, run that mode's form); the selected mode is the interaction's. What is shown is `Display` of the new session: the chosen form's submit rule, or nothing when the form was not submitted. |

## Left out

- Price fetching (`get_eth_price_usd`, `get_btc_price_usd`) is left out. It is an HTTP request plus JSON indexing. The model takes the fetch result as an `Option<real>` input. The `st.error` message shown on a failed fetch is not modelled.
- Failures of the fetch other than `requests.exceptions.RequestException` are not modelled. The code catches only `RequestException`; a missing JSON field raises a `KeyError` that escapes the script.
- `@st.cache_data(ttl=3600)` is left out. It is framework memoisation with a wall-clock expiry. Each interaction's fetch result is simply an input.
- Rendering (`st.title`, `st.form`, `st.success`, `st.info`, `st.error`) is left out. So is the f-string formatting of results (`:.9f`, `:.6f`, `:,.2f`, `:.4f`). The model returns the exact values that are formatted.
- IEEE-754 rounding is not modelled. All quantities are exact reals, so the round trips hold exactly rather than within a tolerance.
- Streamlit keeps a keyed widget's own value across reruns. The model does not: a `Keep` edit returns the widget's `value=` argument.
- Session.SessionState.StorePrice and the forms that call it require the manual seed to be at least the widget's minimum of 0.01. This case arises when the stored price is below 0.01 (a live price edited to 0.005, say) and a later fetch fails: the manual widget at streamlit_app.py:86-93, 150-157, 213-220 or 234-241 is then given a `value=` below its `min_value`, which Streamlit rejects with an error that stops the script. The model does not cover that failure.
- The rate is not re-validated on submit. The code relies on the rate widget's `min_value=1.0`, and there is no separate rate check; the model carries rate ≥ 1 as a session invariant.
- The `ZeroDivisionError` branch shows a message, and the model proves it unreachable.
- The radio's `list.index` lookup (line 65) cannot fail in the model, because the mode is a datatype with exactly the three choices.
