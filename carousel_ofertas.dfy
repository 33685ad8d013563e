/**
  The offers carousel of core/static/js/carousel-ofertas.js: a window of
  1, 2 or 3 slides moved over the slide list by the arrows, the
  indicators, autoplay and swipes. The browser's width and the first
  slide's rendered width are parameters of every call that reads them;
  timers are the points where their callbacks run.
*/
module CarouselOfertas {

  /** getVisibleSlides for a window `width` pixels wide. */
  function VisibleSlides(width: int): (v: nat)
    ensures v == 1 <==> width < 768
    ensures v == 2 <==> 768 <= width < 1024
    ensures v == 3 <==> 1024 <= width
  {
    if width < 768 then 1 else if width < 1024 then 2 else 3
  }

  /** `Math.max(0, n - visible)`: the first slide of the last full window. */
  function MaxSlideDe(n: nat, visible: nat): (m: nat)
    ensures m + visible >= n
    ensures m == 0 || m + visible == n
    ensures m <= n
  {
    if n > visible then n - visible else 0
  }

  /** getMaxSlide. */
  function MaxSlide(n: nat, width: int): nat {
    MaxSlideDe(n, VisibleSlides(width))
  }

  /** The index nextSlide moves to: the next one, or back to 0 from the
      last window (or from beyond it). */
  function Siguiente(actual: int, max: nat): int {
    if actual >= max then 0 else actual + 1
  }

  /** The index prevSlide moves to: the previous one, or round to the last
      window from 0 (or from below it). */
  function Anterior(actual: int, max: nat): int {
    if actual <= 0 then max else actual - 1
  }

  /** The two moves keep the index within the windows. */
  lemma {:induction false} MovimientosEnRango(actual: int, max: nat)
    ensures 0 <= actual ==> 0 <= Siguiente(actual, max) <= max
    ensures 0 <= actual <= max ==> 0 <= Anterior(actual, max) <= max
  {
  }

  /** Within the windows, prevSlide undoes nextSlide and nextSlide undoes
      prevSlide. */
  lemma {:induction false} AnteriorInverso(actual: int, max: nat)
    requires 0 <= actual <= max
    ensures Anterior(Siguiente(actual, max), max) == actual
    ensures Siguiente(Anterior(actual, max), max) == actual
  {
  }

  /** `k` presses of nextSlide from index `actual`. */
  function Avanzar(actual: int, max: nat, k: nat): int
    decreases k
  {
    if k == 0 then actual else Avanzar(Siguiente(actual, max), max, k - 1)
  }

  /** `a + b` presses are `a` presses followed by `b` more. */
  lemma {:induction false} AvanzarSuma(actual: int, max: nat, a: nat, b: nat)
    ensures Avanzar(actual, max, a + b) == Avanzar(Avanzar(actual, max, a), max, b)
    decreases a
  {
    if a > 0 {
      AvanzarSuma(Siguiente(actual, max), max, a - 1, b);
    }
  }

  /** Short of the last window, each press moves one slide on. */
  lemma {:induction false} AvanzarLineal(j: nat, max: nat, k: nat)
    requires j + k <= max
    ensures Avanzar(j, max, k) == j + k
    decreases k
  {
    if k > 0 {
      AvanzarLineal(j + 1, max, k - 1);
    }
  }

  /** From any window, max + 1 presses of nextSlide come back to it after
      visiting every other one: the carousel cycles through all windows. */
  lemma {:induction false} AvanzarCicla(j: nat, max: nat)
    requires j <= max
    ensures Avanzar(j, max, max + 1) == j
    ensures forall k :: 0 <= k <= max - j ==> Avanzar(j, max, k) == j + k
  {
    forall k | 0 <= k <= max - j ensures Avanzar(j, max, k) == j + k {
      AvanzarLineal(j, max, k);
    }
    AvanzarSuma(j, max, max - j, j + 1);
    AvanzarLineal(j, max, max - j);
    assert Avanzar(max, max, j + 1) == Avanzar(0, max, j);
    AvanzarLineal(0, max, j);
  }

  /** The gap between slides, in pixels. */
  const Gap := 30

  /** The fields the navigation reads and writes: `currentSlide`,
      `isTransitioning`, the track's translateX offset and whether an
      autoplay interval is scheduled. */
  datatype Estado = Estado(actual: int, enTransicion: bool, desplazamiento: int, autoplay: bool)

  /** updateCarousel: a transition starts and the track moves to the
      current slide. Without slides, reading `slides[0].offsetWidth` throws
      right after the transition flag is set, so the track stays where it
      was and the timeout that clears the flag is never scheduled. */
  function Actualizar(e: Estado, n: nat, anchoSlide: int): Estado {
    if n == 0 then e.(enTransicion := true)
    else e.(enTransicion := true, desplazamiento := -(e.actual * (anchoSlide + Gap)))
  }

  function PasoSiguiente(e: Estado, n: nat, width: int, anchoSlide: int): Estado {
    if e.enTransicion then e
    else Actualizar(e.(actual := Siguiente(e.actual, MaxSlide(n, width))), n, anchoSlide)
  }

  function PasoAnterior(e: Estado, n: nat, width: int, anchoSlide: int): Estado {
    if e.enTransicion then e
    else Actualizar(e.(actual := Anterior(e.actual, MaxSlide(n, width))), n, anchoSlide)
  }

  /** goToSlide: no lower clamp; autoplay is stopped and started again.
      Without slides updateCarousel throws first, so autoplay is left as
      it was. */
  function PasoIr(e: Estado, index: int, n: nat, width: int, anchoSlide: int): Estado {
    if e.enTransicion then e
    else
      var m := MaxSlide(n, width);
      var r := Actualizar(e.(actual := if index < m then index else m), n, anchoSlide);
      if n == 0 then r else r.(autoplay := true)
  }

  /** handleSwipe: a swipe longer than 50 pixels to the left goes forward,
      to the right goes back; a shorter one does nothing. */
  function PasoSwipe(e: Estado, inicio: real, fin: real, n: nat, width: int, anchoSlide: int): Estado {
    var diff := inicio - fin;
    if diff > 50.0 || -diff > 50.0 then
      if diff > 0.0 then PasoSiguiente(e, n, width, anchoSlide) else PasoAnterior(e, n, width, anchoSlide)
    else e
  }

  /** The index lies within the windows for the current width. */
  predicate EnRango(e: Estado, n: nat, width: int) {
    0 <= e.actual <= MaxSlide(n, width)
  }

  /** What the navigation promises for a fixed width: each move keeps the
      index within the windows (goToSlide for a non-negative index), and
      during a transition none of them changes anything. */
  lemma {:induction false} NavegacionEnRango(e: Estado, n: nat, width: int, anchoSlide: int, index: int,
                                             inicio: real, fin: real)
    requires EnRango(e, n, width)
    ensures EnRango(PasoSiguiente(e, n, width, anchoSlide), n, width)
    ensures EnRango(PasoAnterior(e, n, width, anchoSlide), n, width)
    ensures index >= 0 ==> EnRango(PasoIr(e, index, n, width, anchoSlide), n, width)
    ensures EnRango(PasoSwipe(e, inicio, fin, n, width, anchoSlide), n, width)
  {
    MovimientosEnRango(e.actual, MaxSlide(n, width));
  }

  /** While a transition runs, every move leaves the state as it is. */
  lemma {:induction false} TransicionBloquea(e: Estado, n: nat, width: int, anchoSlide: int, index: int,
                                             inicio: real, fin: real)
    requires e.enTransicion
    ensures PasoSiguiente(e, n, width, anchoSlide) == e
    ensures PasoAnterior(e, n, width, anchoSlide) == e
    ensures PasoIr(e, index, n, width, anchoSlide) == e
    ensures PasoSwipe(e, inicio, fin, n, width, anchoSlide) == e
  {
  }

  /** A swipe of at most 50 pixels either way changes nothing; a longer
      one is exactly one press of an arrow. */
  lemma {:induction false} SwipeUmbral(e: Estado, inicio: real, fin: real, n: nat, width: int, anchoSlide: int)
    ensures -50.0 <= inicio - fin <= 50.0 ==> PasoSwipe(e, inicio, fin, n, width, anchoSlide) == e
    ensures inicio - fin > 50.0 ==> PasoSwipe(e, inicio, fin, n, width, anchoSlide) == PasoSiguiente(e, n, width, anchoSlide)
    ensures fin - inicio > 50.0 ==> PasoSwipe(e, inicio, fin, n, width, anchoSlide) == PasoAnterior(e, n, width, anchoSlide)
  {
  }

  /** A CarouselOfertas instance over `n` slides. updateCarousel reads the
      rendered width of the first slide on every call, so each method that
      reaches it takes that width, `anchoSlide`, as a parameter. */
  class Carousel {
    var currentSlide: int
    var isTransitioning: bool
    var offset: int
    var autoplay: bool
    const hayTrack: bool
    const n: nat

    function State(): Estado
      reads this
    {
      Estado(currentSlide, isTransitioning, offset, autoplay)
    }

    /** The constructor: without a track or without slides the script
        returns before init, so no autoplay is scheduled. */
    constructor(hayTrack: bool, n: nat)
      ensures this.hayTrack == hayTrack && this.n == n
      ensures State() == Estado(0, false, 0, hayTrack && n > 0)
    {
      this.hayTrack := hayTrack;
      this.n := n;
      currentSlide := 0;
      isTransitioning := false;
      offset := 0;
      autoplay := hayTrack && n > 0;
    }

    method UpdateCarousel(anchoSlide: int)
      modifies this
      ensures State() == Actualizar(old(State()), n, anchoSlide)
    {
      isTransitioning := true;
      if n == 0 {
        return;
      }
      offset := -(currentSlide * (anchoSlide + Gap));
    }

    method NextSlide(width: int, anchoSlide: int)
      modifies this
      ensures State() == PasoSiguiente(old(State()), n, width, anchoSlide)
    {
      if isTransitioning {
        return;
      }
      var maxSlide := MaxSlide(n, width);
      if currentSlide >= maxSlide {
        currentSlide := 0;
      } else {
        currentSlide := currentSlide + 1;
      }
      UpdateCarousel(anchoSlide);
    }

    method PrevSlide(width: int, anchoSlide: int)
      modifies this
      ensures State() == PasoAnterior(old(State()), n, width, anchoSlide)
    {
      if isTransitioning {
        return;
      }
      var maxSlide := MaxSlide(n, width);
      if currentSlide <= 0 {
        currentSlide := maxSlide;
      } else {
        currentSlide := currentSlide - 1;
      }
      UpdateCarousel(anchoSlide);
    }

    /** stopAutoplay, which is also the mouseenter and touchstart
        listener: any interval is cleared. */
    method StopAutoplay()
      modifies this
      ensures State() == old(State()).(autoplay := false)
    {
      autoplay := false;
    }

    /** startAutoplay, which is also the mouseleave listener: any interval
        is cleared and a new one is scheduled, with no check on the slides. */
    method StartAutoplay()
      modifies this
      ensures State() == old(State()).(autoplay := true)
    {
      StopAutoplay();
      autoplay := true;
    }

    method GoToSlide(index: int, width: int, anchoSlide: int)
      modifies this
      ensures State() == PasoIr(old(State()), index, n, width, anchoSlide)
    {
      if isTransitioning {
        return;
      }
      var maxSlide := MaxSlide(n, width);
      currentSlide := if index < maxSlide then index else maxSlide;
      UpdateCarousel(anchoSlide);
      if n == 0 {
        return;
      }
      StopAutoplay();
      StartAutoplay();
    }

    method HandleSwipe(inicio: real, fin: real, width: int, anchoSlide: int)
      modifies this
      ensures State() == PasoSwipe(old(State()), inicio, fin, n, width, anchoSlide)
    {
      var diff := inicio - fin;
      if diff > 50.0 || -diff > 50.0 {
        if diff > 0.0 {
          NextSlide(width, anchoSlide);
        } else {
          PrevSlide(width, anchoSlide);
        }
      }
    }

    /** The touchend listener, which init attaches only over a track with
        slides: the swipe, then autoplay again. */
    method TouchEnd(inicio: real, fin: real, width: int, anchoSlide: int)
      requires hayTrack && n > 0
      modifies this
      ensures State() == PasoSwipe(old(State()), inicio, fin, n, width, anchoSlide).(autoplay := true)
    {
      HandleSwipe(inicio, fin, width, anchoSlide);
      StartAutoplay();
    }

    /** The 600 ms timeout of updateCarousel. */
    method TransitionEnd()
      modifies this
      ensures State() == old(State()).(enTransicion := false)
    {
      isTransitioning := false;
    }

    /** The debounced resize handler: back to the first slide, which lies
        within the windows for any width. */
    method Resize(anchoSlide: int)
      modifies this
      ensures hayTrack ==> State() == Actualizar(old(State()).(actual := 0), n, anchoSlide)
      ensures !hayTrack ==> State() == old(State())
      ensures hayTrack ==> forall w :: EnRango(State(), n, w)
    {
      if hayTrack {
        currentSlide := 0;
        UpdateCarousel(anchoSlide);
      }
    }
  }
}
