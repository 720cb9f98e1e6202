# PageRank of a small web corpus

This project models `pagerank.py` in Dafny. The program ranks the HTML pages of a directory in two independent ways:

- **Sampling.** A random surfer starts on a random page. At each step it moves along the transition model. Each page is ranked by the share of visits it gets.
- **Iteration.** The values are relaxed pass after pass, while the largest move of a page in the last pass is at least 0.001 (`while change >= 0.001`).

Only the sampler uses the transition model (`transition_model`). It takes a damping factor `d`:

- With probability `d`, follow a random link of the current page.
- Otherwise, jump to any page.
- A page without links jumps anywhere with probability 1/N.

The relaxation pass of `iterate_pagerank` does not call it. It uses its own update, which has no factor `d` on the link term (see "## Findings").

The modules follow the program:

| module | file | what it models |
|---|---|---|
| `Sums` | sums.dfy | Exact sums over the pages: over the dict order (`SumOver`) and over a set (`SetSum`), plus the counting lemmas they need. |
| `Crawl` | crawl.dfy | The corpus (`Corpus`: the dict's insertion order plus each page's links) and the link filter of `crawl`. |
| `Transition` | transition.dfy | `transition_model`. |
| `Sampling` | sampling.dfy | `sample_pagerank` and the loop of `completeSample`, with the weighted draw by subtraction. |
| `Iteration` | iteration.dfy | `iterate_pagerank`: one relaxation pass as written, and the outer loop with a pass cap. |
| `Intended` | intended.dfy | The standard PageRank update, which keeps the promise of the docstring at pagerank.py:142-144 that the values add up to 1. It is the corrected definition for the finding below. The module also holds the comment at pagerank.py:150, read literally. |

### Modelling choices

- **Exact arithmetic.** Probabilities and ranks are exact `real`s. Sums over a dict follow its key order; sums over a set use an order-free sum.
- **Pure parts become functions.** Crawl and `transition_model` compute values, so they are Dafny functions.
- **Loops become methods.** The scan of `completeSample`, the tally, the sums of `iterate_pagerank` and its relaxation pass update variables step by step. They are methods with loop invariants. Each is proved equal to a specification function, and the properties are proved about that function.
- **Randomness is an input.** `randint` provides the start page index `whichPlace` and the sequence of draws in [0, 1].

### How the code behaves

- **In-place update.** The pass writes each new value into `val` at once (pagerank.py:166, 173). Later pages of the same pass therefore read values already updated. `Iteration.PassIsSweep` states this.
- **Draw range.** A draw is `randint(0, 10*SAMPLES)/(10*SAMPLES)` (pagerank.py:113), so 0 and 1.0 are both possible draws.
- **Sum of the values.** The docstring at pagerank.py:142-144 promises that the values add up to 1. The pass does not keep that promise. See "## Findings".

## Model

| member | source | states |
|---|---|---|
| Crawl.Crawl | pagerank.py:39-46 | The result is a valid corpus over the listed files, in listing order. A link from f to l is kept exactly when it was extracted from f, l is not f itself, and l is a page of the corpus. |
| Crawl.CrawlIdempotent | pagerank.py:42-46 | Filtering the links of a corpus that is already valid gives back the same corpus. |
| Transition.TransitionModel | pagerank.py:51-76 | The distribution has an entry for every page of the corpus and no other. |
| Transition.SinkIsUniform | pagerank.py:61-68 | From a page without links, every page gets 1/N whatever the damping factor. |
| Transition.LinkedValues | pagerank.py:62-76 | From a page with k links, each linked page gets (1-d)/N + d/k and every other page (1-d)/N. |
| Transition.TransitionNonNegative | pagerank.py:51-76 | For 0 <= d <= 1 no probability is negative. |
| Transition.TransitionSumsToOne | pagerank.py:51-76 | In a valid corpus the probabilities add up to exactly 1, for every page and every damping factor. |
| Sampling.ScanFrom | pagerank.py:116-121 | The scan that resumes at position i can only select a page at position i or later. |
| Sampling.PickIsFirstCrossing | pagerank.py:113-121 | The draw selects page k exactly when k is the first position where the running total of probabilities reaches the draw. It selects nothing exactly when the total never reaches it. |
| Sampling.PickTotal | pagerank.py:113-124 | When the probabilities add up to 1 and the draw is at most 1, the scan always selects a corpus page, so the error branch is never taken. |
| Sampling.PickZeroIsFirst | pagerank.py:116-121 | A draw of 0 selects the first page in order. |
| Sampling.SelectNext | pagerank.py:114-121 | The subtracting loop with its early break returns `Pick`, the page of the first-crossing rule (see `Sampling.PickIsFirstCrossing`). |
| Sampling.Trajectory | pagerank.py:107-128 | The walk makes one move per draw, and every page it visits belongs to the corpus. |
| Sampling.TrajectoryStep | pagerank.py:112-128 | The first draw moves the surfer to a corpus page, and the rest of the walk starts from that page. |
| Sampling.Visits | pagerank.py:93-101 | The visits are the start page `order[whichPlace]` followed by one page per draw. |
| Sampling.Tally | pagerank.py:120 | Tallying visits keeps the same set of pages. |
| Sampling.TallyPerPage | pagerank.py:120 | After the visits, each page's entry is its initial entry plus `f` times the number of visits to it. |
| Sampling.TallyTotal | pagerank.py:120 | Tallying adds `f` per visit to the total. |
| Sampling.CompleteSample | pagerank.py:106-128 | The loop returns the initial tally plus `increaseFactor` for every page of the walk that the draws determine. |
| Sampling.NextPage | pagerank.py:112-128 | One step moves to a corpus page, which is the first page of the rest of the walk. |
| Sampling.SampleStep | pagerank.py:117-128 | Tallying the walk from `current` is the same as adding `f` to the page moved to, then tallying the walk from there. |
| Sampling.TallyFirst | pagerank.py:120 | Tallying a first visit is adding `f` to that page. |
| Sampling.SamplePagerank | pagerank.py:82-101 | Every page gets a rank. A page's rank is its number of visits, start included, divided by n. Each rank lies in [0, 1], and the ranks add up to exactly 1. |
| Sampling.RanksAreShares | pagerank.py:95-99 | Starting from 1/n on the start page and 0 elsewhere, each page ends with `f` per visit, the start visit included. |
| Sampling.RanksTotal | pagerank.py:95-99 | The ranks add up to `f` times the number of visits, the start visit included. |
| Sampling.SharesOfVisits | pagerank.py:87-89 | k visits of 1/n each make k/n, which lies in [0, 1], and n of them make 1. |
| Iteration.ConsistentOf | pagerank.py:42-48 | The corpus that `crawl` returns meets what the iteration relies on. |
| Iteration.PassKeys | pagerank.py:158-173 | A pass changes values but not the set of pages. |
| Iteration.PassTurn | pagerank.py:158-173 | The value written at position i is the rank computed from the values as they stand at that point of the pass. |
| Iteration.SumValues | pagerank.py:162-165 | The loop over `val` adds up all the values, in the dict's order. |
| Iteration.SumTargets | pagerank.py:169-171 | The loop over a page's links adds up their values, whatever order the set is walked in. |
| Iteration.Relax | pagerank.py:161-173 | The loop computes `Rank`. The new value of a page without links is the average of all values plus (1-d)/N. For any other page, it is the average value of the pages it links to plus (1-d)/N. |
| Iteration.RelaxationPass | pagerank.py:157-177 | The pass visits the pages in order and updates each in place. `change` is non-negative and bounds every page's move. When the corpus is not empty, some page moves by exactly `change`. |
| Iteration.RecordChange | pagerank.py:174-177 | The comparison and the sign flip keep the larger of the running change and this page's move. |
| Iteration.UpdatePage | pagerank.py:158-177 | One turn of the `for` loop writes page i's new value, and `change` becomes the largest move so far, this page's included. |
| Iteration.PassUntouched | pagerank.py:158-173 | A page the pass has not yet reached still holds its original value. |
| Iteration.PassSettled | pagerank.py:158-173 | A page the pass has already updated keeps the value it was given. |
| Iteration.PassChangeIsLargest | pagerank.py:157-177 | The recorded change is the largest move of any page in the pass, and some page attains it. |
| Iteration.ChangeNonNegative | pagerank.py:157-177 | The recorded change is never negative. |
| Iteration.PassIsSweep | pagerank.py:158-173 | Each page's new value is computed from the new values of the pages before it and the old values of the page itself and those after it. |
| Iteration.RankAtLeast | pagerank.py:161-173 | If every value is at least lo, every relaxed value is at least lo + (1-d)/N. |
| Iteration.PassAtLeast | pagerank.py:158-173 | When every value starts at least lo, no value falls below lo during the pass. Every value written is at least lo + (1-d)/N. |
| Iteration.PassRaisesMinimum | pagerank.py:157-173 | For d <= 1, a pass raises the smallest value by at least (1-d)/N. |
| Iteration.PassChangeAtLeast | pagerank.py:157-177 | For d <= 1, every pass records a change of at least (1-d)/N. |
| Iteration.InitialValues | pagerank.py:146-149 | Every page starts at 1/N. |
| Iteration.Iterate | pagerank.py:146-177 | After any number of passes, the values still cover exactly the corpus pages. |
| Iteration.IteratePagerank | pagerank.py:146-178 | The loop returns the values after `passes` passes, with `passes` at most the cap, and the `change` it last tested. The number of passes is the one `StopsAfter` fixes. `change` starts at 1, so a first pass runs unless the cap is 0. Every pass but the last changed some page by at least 0.001, and the last one changed none by that much unless the cap was reached. For d <= 1 and (1-d)/N >= 0.001 it stops only at the cap. |
| Iteration.OnlyCapStops | pagerank.py:151-156 | When d <= 1 and (1-d)/N >= 0.001, every pass changes some page by at least 0.001, so a loop that stops as `StopsAfter` says stops at the cap, including when no pass has run yet and `change` is still 1. |
| Iteration.StopsAfterIsUnique | pagerank.py:151-156 | Only one number of passes fits `StopsAfter`: the loop runs up to the first pass that changes no page by 0.001, or up to the cap. |
| Iteration.KeepsGoing | pagerank.py:156 | Before a pass count at which every earlier pass moved some page by 0.001, the `while` test still holds at every earlier count. |
| Iteration.KeptMoving | pagerank.py:156-177 | A turn of the outer loop runs only when the last pass moved some page by 0.001, so after it every pass but the newest one did. |
| Iteration.LoopStops | pagerank.py:151-156 | When the `while` test fails, the number of passes run is the one `StopsAfter` describes. |
| Iteration.NextPass | pagerank.py:156-177 | One turn of the outer loop is one more pass, and the change it reports is that pass's. |
| Iteration.NeverConverges | pagerank.py:156-177 | For d <= 1, every pass changes some value by at least (1-d)/N. So with (1-d)/N >= 0.001 the loop never ends. |
| Iteration.TwoPagesNeverSettle | pagerank.py:156-177 | With two pages and d = 0.85, every pass changes some value by at least 0.075 > 0.001. After k passes the values add up to at least 1 + 0.15k. |
| Iteration.TwoPagesExample | pagerank.py:156-177 | For the corpus of two pages 1.html and 2.html linking to each other, with d = 0.85, every pass changes some value by more than 0.001, and after k passes the values add up to at least 1 + 0.15k. |
| Iteration.IterateAtLeast | pagerank.py:146-177 | For d <= 1, after k passes every value is at least 1/N + k(1-d)/N. |
| Iteration.IterateSum | pagerank.py:142-144 | For d <= 1, after k passes the values add up to at least 1 + k(1-d). So the promise that the values sum to 1 fails after the first pass when d < 1. |
| Intended.IntendedPass | pagerank.py:142-144 | The standard PageRank update, with incoming links and the factor d, chosen because it keeps the promise at 142-144. It keeps the same set of pages. |
| Intended.IncomingTotal | pagerank.py:142-144 | Over all pages, what a set of pages passes on adds up to d times their values. |
| Intended.SharesTotal | pagerank.py:142-144 | What one page passes on adds up to d times its value, whether it has links or not. |
| Intended.IntendedKeepsTotal | pagerank.py:142-144 | The intended update maps a total of T to (1-d) + dT, so a total of 1 stays 1. |
| Intended.IntendedIterate | pagerank.py:146-149 | The intended iteration keeps the values on exactly the corpus pages. |
| Intended.CommentKeepsUniform | pagerank.py:150 | The comment's formula read literally, (1-d)/N plus d times the average value of the pages p links to, gives 1/N back at every page when all values are 1/N. Started from 1/N, as pagerank.py:147-149 does, it never moves, so it cannot be the update meant. |
| Intended.IntendedSumsToOne | pagerank.py:142-144 | Starting from 1/N everywhere, the values add up to exactly 1 after any number of intended updates. |

## Left out

- Reading the directory (pagerank.py:33-38) is not modelled. This covers listing the files, keeping those ending in `.html`, opening them, and the link regular expression, which all need the file system. `Crawl.Crawl` takes the listed HTML files and the links extracted from each as inputs.
- `main` and the command line (pagerank.py:10-21, 184-185) are input and output only. They are not modelled.
- Randomness comes in as inputs:
  - the start page index that `randint(0, len(corpus)-1)` returns;
  - the draws that `randint(0, 10*SAMPLES)/(10*SAMPLES)` returns.
  A draw is modelled as any real in [0, 1], not only the multiples of 1/100000.
- Floating point is not modelled. Values are exact reals, so the ranks sum to exactly 1 where the program's floats only come close.
- With rounding, a scan can run past every page. The `print("error")` branch (pagerank.py:122-124) and the `None` start page that would follow are then reachable. With exact reals `Sampling.PickTotal` proves that branch unreachable, so it is not modelled.
- The `sample_pagerank` call inside `iterate_pagerank` (pagerank.py:155) is not modelled. Its result is never used, and it only consumes random draws.
- Iteration.IteratePagerank: it does not model a loop that may run forever. The model stops after `maxPasses` passes, because every loop here must be proved to terminate. `Iteration.NeverConverges` shows the loop as written never stops for d <= 1 when (1-d)/N >= 0.001.
- Iteration.RelaxationPass, Iteration.IteratePagerank: they require only `Consistent`, which is weaker than `Crawl`'s validity. `Iteration.ConsistentOf` shows that a valid corpus meets it.
- Sampling.SamplePagerank: it requires n >= 1 and a start index inside the corpus. With n = 0, pagerank.py:98 divides by zero. With an empty corpus, `randint(0, -1)` at pagerank.py:93 raises.
- Iteration.InitialValues, Iteration.IteratePagerank: they require a non-empty corpus, because pagerank.py:147 divides by `len(corpus)`.
- `Transition.TransitionModel` requires the page to be in the corpus, as `corpus[page]` at pagerank.py:61 raises otherwise.
- The order in which Python walks a set is not modelled. `Iteration.SumTargets` picks any remaining element, and `SetSum` is proved not to depend on the order.

## Findings

| source | as written | input that shows it | evidently intended | confidence | as-written member | corrected member |
|---|---|---|---|---|---|---|
| pagerank.py:156-177 | Each pass sets a page to (1-d)/N plus the plain average of the current values of the pages it links to (of all pages, for a page without links). There is no factor d, and the average is over outgoing rather than incoming links. | Two pages 1.html and 2.html that link to each other, with d = 0.85. Every pass records a change of at least 0.075, so `change >= 0.001` always holds and the loop never ends. After k passes the values add up to at least 1 + 0.15k. | The standard PageRank definition: PR(p) = (1-d)/N + d times the sum of PR(i)/NumLinks(i) over the pages i linking to p, with a page without links counting as linking to every page. It is chosen because, started from 1/N, it keeps the values summing to 1, as the docstring at pagerank.py:142-144 promises. The comment at pagerank.py:150 supports the missing factor d. Read literally, it averages p's own links, and then a start at 1/N never moves (`Intended.CommentKeepsUniform`). | high; not executed | Iteration.TwoPagesNeverSettle | Intended.IntendedSumsToOne |
