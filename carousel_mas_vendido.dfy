/**
  The best-seller carousel of core/static/js/carousel-mas-vendido.js. It
  moves like the offers carousel, with up to four slides per window on
  wide screens, a 20-pixel gap, and a guard against an empty slide list in
  every navigation method, in updateCarousel and in startAutoplay.
*/
module CarouselMasVendido {
  import CarouselOfertas

  /** getVisibleSlides: on wide screens the window never holds more slides
      than there are. */
  function VisibleSlides(width: int, n: nat): (v: nat)
    ensures width < 768 ==> v == 1
    ensures 768 <= width < 1024 ==> v == 2
    ensures 1024 <= width ==> v <= 4 && v <= n && (v == 4 || v == n)
  {
    if width < 768 then 1 else if width < 1024 then 2 else if n < 4 then n else 4
  }

  /** getMaxSlide. */
  function MaxSlide(n: nat, width: int): nat {
    CarouselOfertas.MaxSlideDe(n, VisibleSlides(width, n))
  }

  /** The gap between slides, in pixels. */
  const Gap := 20

  /** `currentSlide`, `isTransitioning`, the track's translateX offset and
      whether an autoplay interval is scheduled. */
  datatype Estado = Estado(actual: int, enTransicion: bool, desplazamiento: int, autoplay: bool)

  /** updateCarousel: nothing without slides. */
  function Actualizar(e: Estado, n: nat, anchoSlide: int): Estado {
    if n == 0 then e
    else e.(enTransicion := true, desplazamiento := -(e.actual * (anchoSlide + Gap)))
  }

  function PasoSiguiente(e: Estado, n: nat, width: int, anchoSlide: int): Estado {
    if e.enTransicion || n == 0 then e
    else Actualizar(e.(actual := CarouselOfertas.Siguiente(e.actual, MaxSlide(n, width))), n, anchoSlide)
  }

  function PasoAnterior(e: Estado, n: nat, width: int, anchoSlide: int): Estado {
    if e.enTransicion || n == 0 then e
    else Actualizar(e.(actual := CarouselOfertas.Anterior(e.actual, MaxSlide(n, width))), n, anchoSlide)
  }

  /** goToSlide: stopAutoplay then startAutoplay, which schedules again
      because there are slides. */
  function PasoIr(e: Estado, index: int, n: nat, width: int, anchoSlide: int): Estado {
    if e.enTransicion || n == 0 then e
    else
      var m := MaxSlide(n, width);
      Actualizar(e.(actual := if index < m then index else m), n, anchoSlide).(autoplay := n > 0)
  }

  function PasoSwipe(e: Estado, inicio: real, fin: real, n: nat, width: int, anchoSlide: int): Estado {
    var diff := inicio - fin;
    if diff > 50.0 || -diff > 50.0 then
      if diff > 0.0 then PasoSiguiente(e, n, width, anchoSlide) else PasoAnterior(e, n, width, anchoSlide)
    else e
  }

  /** What every state of the carousel satisfies for a fixed width: the
      index lies within the windows, the track sits at the current slide
      once it has moved, and autoplay runs only over a non-empty list. */
  predicate Valido(e: Estado, n: nat, width: int, anchoSlide: int) {
    && 0 <= e.actual <= MaxSlide(n, width)
    && (e.autoplay ==> n > 0)
    && (e.enTransicion ==> e.desplazamiento == -(e.actual * (anchoSlide + Gap)))
  }

  /** Every move keeps Valido (goToSlide for a non-negative index). */
  lemma {:induction false} NavegacionValida(e: Estado, n: nat, width: int, anchoSlide: int, index: int,
                                            inicio: real, fin: real)
    requires Valido(e, n, width, anchoSlide)
    ensures Valido(PasoSiguiente(e, n, width, anchoSlide), n, width, anchoSlide)
    ensures Valido(PasoAnterior(e, n, width, anchoSlide), n, width, anchoSlide)
    ensures index >= 0 ==> Valido(PasoIr(e, index, n, width, anchoSlide), n, width, anchoSlide)
    ensures Valido(PasoSwipe(e, inicio, fin, n, width, anchoSlide), n, width, anchoSlide)
  {
    CarouselOfertas.MovimientosEnRango(e.actual, MaxSlide(n, width));
  }

  /** With no slides, or during a transition, nothing moves. */
  lemma {:induction false} SinSlidesNoNavega(e: Estado, n: nat, width: int, anchoSlide: int, index: int,
                                             inicio: real, fin: real)
    requires n == 0 || e.enTransicion
    ensures PasoSiguiente(e, n, width, anchoSlide) == e
    ensures PasoAnterior(e, n, width, anchoSlide) == e
    ensures PasoIr(e, index, n, width, anchoSlide) == e
    ensures PasoSwipe(e, inicio, fin, n, width, anchoSlide) == e
  {
  }

  /** A CarouselMasVendido instance over `n` slides. updateCarousel reads
      the rendered width of the first slide on every call, so each method
      that reaches it takes that width, `anchoSlide`, as a parameter. */
  class Carousel {
    var currentSlide: int
    var isTransitioning: bool
    var offset: int
    var autoplay: bool
    const hayTrack: bool
    const n: nat

    function State(): Estado
      reads this
    {
      Estado(currentSlide, isTransitioning, offset, autoplay)
    }

    /** The constructor: init, and with it autoplay, runs only with a track
        and at least one slide. */
    constructor(hayTrack: bool, n: nat)
      ensures this.hayTrack == hayTrack && this.n == n
      ensures State() == Estado(0, false, 0, hayTrack && n > 0)
      ensures forall w, a :: Valido(State(), n, w, a)
    {
      this.hayTrack := hayTrack;
      this.n := n;
      currentSlide := 0;
      isTransitioning := false;
      offset := 0;
      autoplay := hayTrack && n > 0;
    }

    method UpdateCarousel(anchoSlide: int)
      modifies this
      ensures State() == Actualizar(old(State()), n, anchoSlide)
    {
      if n == 0 {
        return;
      }
      isTransitioning := true;
      offset := -(currentSlide * (anchoSlide + Gap));
    }

    method NextSlide(width: int, anchoSlide: int)
      modifies this
      ensures State() == PasoSiguiente(old(State()), n, width, anchoSlide)
    {
      if isTransitioning || n == 0 {
        return;
      }
      var maxSlide := MaxSlide(n, width);
      if currentSlide >= maxSlide {
        currentSlide := 0;
      } else {
        currentSlide := currentSlide + 1;
      }
      UpdateCarousel(anchoSlide);
    }

    method PrevSlide(width: int, anchoSlide: int)
      modifies this
      ensures State() == PasoAnterior(old(State()), n, width, anchoSlide)
    {
      if isTransitioning || n == 0 {
        return;
      }
      var maxSlide := MaxSlide(n, width);
      if currentSlide <= 0 {
        currentSlide := maxSlide;
      } else {
        currentSlide := currentSlide - 1;
      }
      UpdateCarousel(anchoSlide);
    }

    /** stopAutoplay, which is also the mouseenter and touchstart
        listener: any interval is cleared. */
    method StopAutoplay()
      modifies this
      ensures State() == old(State()).(autoplay := false)
    {
      autoplay := false;
    }

    /** startAutoplay, which is also the mouseleave listener: any interval
        is cleared, and a new one is scheduled only over a non-empty list. */
    method StartAutoplay()
      modifies this
      ensures State() == old(State()).(autoplay := n > 0)
    {
      StopAutoplay();
      if n > 0 {
        autoplay := true;
      }
    }

    method GoToSlide(index: int, width: int, anchoSlide: int)
      modifies this
      ensures State() == PasoIr(old(State()), index, n, width, anchoSlide)
    {
      if isTransitioning || n == 0 {
        return;
      }
      var maxSlide := MaxSlide(n, width);
      currentSlide := if index < maxSlide then index else maxSlide;
      UpdateCarousel(anchoSlide);
      StopAutoplay();
      StartAutoplay();
    }

    method HandleSwipe(inicio: real, fin: real, width: int, anchoSlide: int)
      modifies this
      ensures State() == PasoSwipe(old(State()), inicio, fin, n, width, anchoSlide)
    {
      var diff := inicio - fin;
      if diff > 50.0 || -diff > 50.0 {
        if diff > 0.0 {
          NextSlide(width, anchoSlide);
        } else {
          PrevSlide(width, anchoSlide);
        }
      }
    }

    /** The touchend listener: the swipe, then autoplay again. */
    method TouchEnd(inicio: real, fin: real, width: int, anchoSlide: int)
      modifies this
      ensures State() == PasoSwipe(old(State()), inicio, fin, n, width, anchoSlide).(autoplay := n > 0)
    {
      HandleSwipe(inicio, fin, width, anchoSlide);
      StartAutoplay();
    }

    /** The 600 ms timeout of updateCarousel. */
    method TransitionEnd()
      modifies this
      ensures State() == old(State()).(enTransicion := false)
    {
      isTransitioning := false;
    }

    /** The debounced resize handler: back to the first slide. */
    method Resize(anchoSlide: int)
      modifies this
      ensures hayTrack ==> State() == Actualizar(old(State()).(actual := 0), n, anchoSlide)
      ensures !hayTrack ==> State() == old(State())
    {
      if hayTrack {
        currentSlide := 0;
        UpdateCarousel(anchoSlide);
      }
    }
  }
}
