/**
 * The static content tables of `lib/constants.tsx` that the components'
 * logic reads, as model constants.
 */
module SiteContent {

  /** A navigation entry (`label` is a reserved word in Dafny, hence `linkLabel`). */
  datatype NavLink = NavLink(linkLabel: string, href: string)

  /** An offering card. */
  datatype Service = Service(id: string, title: string, description: string, icon: string, items: seq<string>)

  /** A client card. */
  datatype Client = Client(name: string, fullName: string, description: string, logo: string)

  /** A gallery picture. */
  datatype GalleryItem = GalleryItem(id: string, image: string, description: string, alt: string)

  const COMPANY_EMAIL: string := "contact@chs.com"

  /** The messaging deep link's base: a path with no query part. */
  const WHATSAPP_URL: string := "https://wa.me/919112401267"

  const NAV_LINKS: seq<NavLink> := [
    NavLink("Home", "#home"),
    NavLink("About Us", "#about"),
    NavLink("Offerings", "#services"),
    NavLink("Gallery", "#gallery"),
    NavLink("Our Clients", "#clients")
  ]

  const SERVICES: seq<Service> := [
    Service("clinical-training", "Clinical & Professional Training", "Comprehensive training programs for healthcare professionals", "Stethoscope", [
      "Advanced training programs for physicians and nursing officers",
      "Employability-focused courses for nursing students and professionals",
      "Certified courses for private hospital staff, including AI-driven healthcare applications",
      "Capability Building: Skill development programs for paramedical and support staff",
      "Customized induction modules tailored to local contexts",
      "Payroll management solutions for nursing and support teams"
    ]),
    Service("quality-accreditation", "Quality & Accreditation", "Elevate your healthcare standards with our quality improvement services", "CheckCircle", [
      "Assistance with NABH and ISO certification processes",
      "Quality improvement projects to elevate patient care and hospital performance",
      "Digital Health Transformation: Technical partnership for implementing ABDM",
      "Support with facility and professional registries",
      "Creation and management of electronic health records",
      "Business process reengineering for seamless digital adoption"
    ]),
    Service("digital-health", "Digital Health Transformation", "Transform your healthcare delivery with modern digital solutions", "Stethoscope", [
      "Technical partnership for Ayushmaan Bharat Digital Mission (ABDM)",
      "Healthcare IT infrastructure setup and optimization",
      "Electronic health records (EHR) implementation",
      "Digital systems integration and data management",
      "Staff training for digital adoption",
      "Ongoing technical support and maintenance"
    ])
  ]

  const CLIENTS: seq<Client> := [
    Client(
      "DRFHE",
      "Dr. Reddy's Forum for Health Education",
      "Empowering Healthcare Professionals with Skills That Save Lives. CHS proudly partners with Dr. Reddy's Forum for Health Education (DRFHE) to strengthen the capabilities of nursing and paramedical staff across India. Through specialized training programs, we equip frontline healthcare workers with critical knowledge in: Ventilator use and critical care management, Antenatal & postnatal care, Operation theatre protocols, Biomedical waste management & syringe safety, Super-specialty areas such as oncology, with a focus on medication and patient safety. By tailoring modules to the needs of the target population, CHS ensures that every training session is practical, relevant, and impactful.",
      "/images/clients/drfhe-logo.jpg"),
    Client(
      "District Women Health",
      "District Woman Hospital, Buldana",
      "Driving Quality Care at District Woman Hospital, Buldana. At the District Woman Hospital in Buldana, CHS is leading initiatives to improve clinical outcomes and patient safety. Our dedicated team conducts regular competency assessments and designs customized action plans to strengthen clinical and quality improvement skills. This hands-on approach helps healthcare providers deliver better care, every day.",
      "/images/clients/dwh-logo.jpg")
  ]

  const GALLERY_ITEMS: seq<GalleryItem> := [
    GalleryItem(
      "gallery-1",
      "https://res.cloudinary.com/dx3p9tqx3/image/upload/v1770884106/gallery_image_1_a9tzn8.png",
      "CHS Faculty taking Session at a Private Hospital in Jaipur (Nov 2025)",
      "CHS Faculty conducting training session at Private Hospital in Jaipur"),
    GalleryItem(
      "gallery-2",
      "https://res.cloudinary.com/dx3p9tqx3/image/upload/v1770884105/gallery_image_2_kx83tp.png",
      "CHS Faculty taking session at Private Hospital in Ghaziabad (Nov 2025)",
      "CHS Faculty presenting at Private Hospital in Ghaziabad"),
    GalleryItem(
      "gallery-3",
      "https://res.cloudinary.com/dx3p9tqx3/image/upload/v1770884105/gallery_image_3_esueco.png",
      "CHS Faculty taking session at Kolhapur (Maharashtra) (Dec 2025)",
      "CHS Faculty training session at Kolhapur, Maharashtra"),
    GalleryItem(
      "gallery-4",
      "https://res.cloudinary.com/dx3p9tqx3/image/upload/v1770884104/gallery_image_4_znq0pu.png",
      "CHS Faculty orienting at Government Medical College Hospital, Bhopal (Jan 2026)",
      "CHS Faculty presentation at Government Medical College Hospital, Bhopal"),
    GalleryItem(
      "gallery-5",
      "https://res.cloudinary.com/dx3p9tqx3/image/upload/v1770884104/gallery_image_5_h10xia.png",
      "CHS Faculty orienting at Government Medical College Hospital, Bhopal (Jan 2026)",
      "CHS Faculty clinical case presentation at Government Medical College Hospital, Bhopal")
  ]
}
