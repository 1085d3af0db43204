# Mool AI orchestration chatbot: metrics accounting

This project models the metrics accounting of the Mool AI orchestration
chatbot, a Streamlit page (`app.py`). The page keeps a record, `metrics_db`,
with six call counters. The script rebuilds this record with zeros on every
Streamlit rerun, so the deployed dashboard shows zeros. The session lemmas
below describe an explicit session object that persists across requests; they
state what the counting rules imply once the record is kept, not what the
deployed page displays. Each "Send" of a non-empty question does
three things:

- it picks a model tier, Mool AI or OpenAI;
- it picks an outcome, success or failure;
- it routes the call to the higher or the lower model (`route_call`).

Each choice adds one to exactly one counter. The dashboard then reports the
cost per tier and the savings.

- `accounting.dfy`, module `Accounting`: the counters as a value (`Counters`),
  the session invariant (`Balanced`), the prices and the cost report.
- `chatbot.dfy`, module `Chatbot`: the tier, outcome and routing rules; the
  `MetricsDb` class, whose `RouteCall` and `Send` methods update the counters
  in place; `Step` and `Run`, the effect of one request and of a session's
  requests on the counters; and the lemmas about whole sessions.

The three random draws (`random.random()`) are inputs to `Send`, each a real
in [0, 1). They are drawn in the order of the source: tier draw, status draw,
routing draw. Prices are exact reals (0.02 and 0.01), so no floating-point
rounding is involved.

In `app.py` every handled Send increments one tier counter, one outcome
counter and one routing counter (app.py:45-50), so the three pair sums stay
equal (`RunBalanced`, `SessionBalanced`).

## Model

| member | source | states |
|---|---|---|
| `Chatbot.MetricsDb.constructor` | app.py:16-23 | a new session starts with all six counters at zero |
| `Chatbot.MetricsDb.RouteCall` | app.py:29-36 | a draw below 0.8 gives "higher" and adds one to `higher_model_calls`; otherwise it gives "lower" and adds one to `lower_model_calls`; the other counters are unchanged |
| `Chatbot.MetricsDb.Send` | app.py:41-50 | returns the tier, outcome and routing the page reports (Mool iff the tier draw is > 0.5, success iff the status draw is > 0.1, higher iff the routing draw is < 0.8), or nothing when the button was not pressed or the question is empty; the new counters are `Step` of the old ones; a balanced record stays balanced |
| `Chatbot.Step` | app.py:41-50 | an ignored request changes nothing; a handled one adds exactly one to the tier, outcome and routing pairs; `mool_calls` grows iff the tier draw is > 0.5 (so 0.5 goes to OpenAI); `successful_calls` grows iff the status draw is > 0.1; `higher_model_calls` grows iff the routing draw is < 0.8; each opposite counter grows in exactly the complementary case; no counter decreases |
| `Chatbot.RunCounts` | app.py:45-50 | over any sequence of requests, each counter pair grows by exactly the number of handled requests |
| `Chatbot.RunBalanced` | app.py:45-50 | requests keep the three pair sums equal once they are equal |
| `Chatbot.SessionBalanced` | app.py:16-50 | from all-zero counters, after any sequence of requests, `openai_calls + mool_calls == successful_calls + failed_calls == higher_model_calls + lower_model_calls` |
| `Chatbot.SessionCount` | app.py:16-50 | from all-zero counters, the tier pair counts exactly the handled requests |
| `Chatbot.RunNoDecrease` | app.py:32-48 | no counter ever decreases over a sequence of requests |
| `Accounting.Report` | app.py:71-75 | the per-tier costs are non-negative and zero exactly when that tier has no calls; savings are the OpenAI cost minus the Mool AI cost, negative exactly when Mool AI calls exceed twice the OpenAI calls and zero exactly when they are equal to it |
| `Accounting.NegativeSavingsReported` | app.py:75 | an illustration of `Accounting.Report`'s sign clause: one OpenAI call against three Mool AI calls reports a negative saving, so savings are not clamped |
| `Chatbot.StepCost` | app.py:45-46 | a handled request raises its own tier's cost by that tier's price (0.02 OpenAI, 0.01 Mool AI) and leaves the other tier's cost alone; savings move by +0.02 or -0.01; an ignored request changes no figure |
| `Chatbot.RunCost` | app.py:71-72 | the total reported cost equals the sum of the prices of the tiers chosen for the handled requests |

## Left out

- Page setup, sidebar navigation, text input, messages and metric widgets (app.py:1-13, 38-40, 51-69, 73-78): user-interface rendering with no effect on the counters.
- The pandas table on the dashboard (app.py:64-67): display only.
- The `random` module: the draws are parameters, so the 80/20 and 50/50 distributions are not modelled. They are statistical, not per-call, properties.
- The `:.4f` formatting and IEEE-754 arithmetic on the prices: costs are exact reals.
- Streamlit's rerun semantics: the script rebuilds `metrics_db` with zeros on every rerun. The model has an explicit session object whose constructor zeroes all fields, and it does not model process or session lifetime.
- The unused `time` import (app.py:4).
- The report's lack of side effects is not stated as a separate lemma: `Accounting.Report` is a function of a `Counters` value, so it cannot change the record.
