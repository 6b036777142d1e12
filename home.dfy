/** The public home page: the rotating hero image and testimonial, the
    portfolio filter, the loaded lists and the inquiry form's submit
    status. The timers that drive the rotations and the status reset are
    left out; each tick is a method of its own. */
module HomePage {
  import opened Common
  import Seqs

  datatype PortfolioImage = PortfolioImage(id: string, categoryId: string, imageUrl: string)

  datatype Service = Service(id: string, name: string)

  datatype Testimonial = Testimonial(id: string, clientName: string, rating: nat, text: string)

  datatype Inquiry = Inquiry(name: string, email: string, phone: string, serviceType: string,
                             preferredDate: string, message: string)

  const EMPTY_INQUIRY: Inquiry := Inquiry("", "", "", "", "", "")

  /** `heroImages.length`. */
  const HERO_COUNT: nat := 3

  const ALL: string := "all"

  datatype SubmitStatus = Idle | Submitting | Success | Failed

  function InCategory(filter: string): PortfolioImage -> bool {
    (img: PortfolioImage) => img.categoryId == filter
  }

  /** `filteredImages`. */
  function Filtered(images: seq<PortfolioImage>, filter: string): seq<PortfolioImage> {
    if filter == ALL then images else Seqs.Filter(images, InCategory(filter))
  }

  /** Under 'all' every image shows; under any other filter exactly the
      images of that category show, in their order. */
  lemma FilteredImagesSpec(images: seq<PortfolioImage>, filter: string)
    ensures filter == ALL ==> Filtered(images, filter) == images
    ensures filter != ALL ==>
              var r := Filtered(images, filter);
              Seqs.IsSubsequence(r, images) &&
              (forall i :: 0 <= i < |r| ==> r[i].categoryId == filter) &&
              (forall i :: 0 <= i < |images| && images[i].categoryId == filter ==> images[i] in r)
  {
    if filter != ALL {
      Seqs.FilterIsSubsequence(images, InCategory(filter));
    }
  }

  class Home {
    var heroIndex: int
    var currentTestimonial: int
    var activeFilter: string
    var portfolioImages: seq<PortfolioImage>
    var services: seq<Service>
    var testimonials: seq<Testimonial>
    var loading: bool
    var form: Inquiry
    var status: SubmitStatus

    /** The hero index names one of the hero images, and the testimonial
        index one of the testimonials whenever there are any. */
    predicate Valid()
      reads this
    {
      0 <= heroIndex < HERO_COUNT && 0 <= currentTestimonial && (testimonials != [] ==> currentTestimonial < |testimonials|)
    }

    constructor ()
      ensures Valid() && heroIndex == 0 && currentTestimonial == 0 && activeFilter == ALL
      ensures portfolioImages == [] && services == [] && testimonials == [] && loading
      ensures form == EMPTY_INQUIRY && status == Idle
    {
      heroIndex, currentTestimonial := 0, 0;
      activeFilter := ALL;
      portfolioImages, services, testimonials := [], [], [];
      loading := true;
      form := EMPTY_INQUIRY;
      status := Idle;
    }

    function FilteredImages(): seq<PortfolioImage>
      reads this
    {
      Filtered(portfolioImages, activeFilter)
    }

    /** `loadData`, run once on mount: each list is replaced only when its
        reply carried data. */
    method LoadData(portfolio: Option<seq<PortfolioImage>>, servicesData: Option<seq<Service>>,
                    testimonialsData: Option<seq<Testimonial>>)
      modifies this
      ensures portfolioImages == portfolio.GetOr(old(portfolioImages))
      ensures services == servicesData.GetOr(old(services))
      ensures testimonials == testimonialsData.GetOr(old(testimonials))
      ensures !loading
      ensures heroIndex == old(heroIndex) && currentTestimonial == old(currentTestimonial)
      ensures activeFilter == old(activeFilter) && form == old(form) && status == old(status)
      ensures old(Valid()) && old(currentTestimonial) == 0 ==> Valid()
    {
      if portfolio.Some? {
        portfolioImages := portfolio.value;
      }
      if servicesData.Some? {
        services := servicesData.value;
      }
      if testimonialsData.Some? {
        testimonials := testimonialsData.value;
      }
      loading := false;
    }

    /** The hero interval: `(prev + 1) % heroImages.length`. */
    method HeroTick()
      requires Valid()
      modifies this`heroIndex
      ensures Valid()
      ensures heroIndex == (old(heroIndex) + 1) % HERO_COUNT
      ensures old(heroIndex) < HERO_COUNT - 1 ==> heroIndex == old(heroIndex) + 1
      ensures old(heroIndex) == HERO_COUNT - 1 ==> heroIndex == 0
    {
      heroIndex := (heroIndex + 1) % HERO_COUNT;
    }

    /** A hero dot: one of the three images. */
    method SelectHero(index: nat)
      requires Valid() && index < HERO_COUNT
      modifies this`heroIndex
      ensures Valid() && heroIndex == index
    {
      heroIndex := index;
    }

    /** The testimonial interval, which runs only while there are
        testimonials: `(prev + 1) % testimonials.length`. */
    method TestimonialTick()
      requires Valid()
      modifies this`currentTestimonial
      ensures Valid()
      ensures testimonials == [] ==> currentTestimonial == old(currentTestimonial)
      ensures testimonials != [] ==> currentTestimonial == (old(currentTestimonial) + 1) % |testimonials|
    {
      if |testimonials| > 0 {
        currentTestimonial := (currentTestimonial + 1) % |testimonials|;
      }
    }

    /** A testimonial dot. */
    method SelectTestimonial(index: nat)
      requires Valid() && index < |testimonials|
      modifies this`currentTestimonial
      ensures Valid() && currentTestimonial == index
    {
      currentTestimonial := index;
    }

    /** A filter button. */
    method SetFilter(filter: string)
      modifies this`activeFilter
      ensures activeFilter == filter && FilteredImages() == Filtered(portfolioImages, filter)
    {
      activeFilter := filter;
    }

    /** `handleSubmit`, given whether the insert failed: the form goes out
        as it is; on success the status is `success` and the form empties,
        on failure the status is `error` and the form stays. */
    method HandleSubmit(insertFailed: bool) returns (inserted: Inquiry)
      modifies this`status, this`form
      ensures inserted == old(form)
      ensures !insertFailed ==> status == Success && form == EMPTY_INQUIRY
      ensures insertFailed ==> status == Failed && form == old(form)
    {
      status := Submitting;
      inserted := form;
      if insertFailed {
        status := Failed;
      } else {
        status := Success;
        form := EMPTY_INQUIRY;
      }
    }

    /** The timeout after either outcome: back to idle. */
    method StatusTimeout()
      requires status == Success || status == Failed
      modifies this`status
      ensures status == Idle
    {
      status := Idle;
    }
  }
}
