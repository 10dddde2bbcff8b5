/** The static tables the backend reads: focus areas, careers, soft skills and questions. */
module Constants {

  /** The catalogue of focus areas offered to the language model. */
  const FOCUS_AREAS: seq<string> := [
    "Digital Transformation & E-commerce",
    "Software Development & Cloud Computing",
    "Cybersecurity & Data Privacy",
    "Artificial Intelligence & Machine Learning",
    "Medicine & Healthcare",
    "Sports & Professional Athletics",
    "Aerospace & Aviation",
    "Agriculture & Agribusiness",
    "Finance & Financial Services",
    "Renewable Energy",
    "Biotechnology & Genomics",
    "Robotics & Automation",
    "Data Analytics & Business Intelligence",
    "Internet of Things & Embedded Systems",
    "Blockchain & Web3 Technologies",
    "Civil Engineering",
    "Architecture",
    "Business & Entrepreneurship"
  ]

  /** The careers recommended for each focus area. */
  const CAREER_RECOMMENDATIONS: map<string, seq<string>> := map[
    "Digital Transformation & E-commerce" := ["Digital Marketing Manager", "E-commerce Specialist", "UX/UI Designer", "Content Marketing Strategist", "SEO Specialist", "Social Media Manager", "Web Analyst"],
    "Software Development & Cloud Computing" := ["Software Engineer", "Web Developer (Front-End, Back-End, Full-Stack)", "Cloud Architect", "DevOps Engineer", "Mobile App Developer (iOS, Android)", "Database Administrator"],
    "Cybersecurity & Data Privacy" := ["Security Analyst", "Penetration Tester", "Cybersecurity Engineer", "Security Architect", "Data Protection Officer", "Information Security Manager"],
    "Artificial Intelligence & Machine Learning" := ["Machine Learning Engineer", "Data Scientist", "AI Researcher", "NLP Engineer", "Computer Vision Engineer", "AI Ethicist"],
    "Medicine & Healthcare" := ["Doctor (General Practitioner)", "Surgeon (various specializations)", "Cardiologist", "Neurologist", "Pediatrician", "Oncologist", "Nurse Practitioner", "Physician Assistant", "Medical Researcher", "Pharmacist"],
    "Sports & Professional Athletics" := ["Professional Athlete (various sports)", "Olympic Athlete", "Sports Coach (various levels)", "Fitness Trainer", "Sports Medicine Physician", "Physical Therapist (sports focus)", "Sports Analyst", "Sports Agent"],
    "Aerospace & Aviation" := ["Pilot (Commercial, Private, Airline)", "Aerospace Engineer", "Aircraft Mechanic", "Air Traffic Controller", "Flight Attendant", "Aerospace Technician", "Astronaut"],
    "Agriculture & Agribusiness" := ["Farm Manager", "Agricultural Scientist", "Agronomist", "Agricultural Consultant", "Food Scientist", "Agribusiness Manager", "Precision Agriculture Specialist"],
    "Finance & Financial Services" := ["Financial Analyst", "Investment Banker", "Financial Advisor", "Accountant", "Economist", "Actuary", "Loan Officer", "Financial Planner"],
    "Renewable Energy" := ["Solar Energy Engineer", "Wind Energy Engineer", "Energy Storage Specialist", "Sustainability Consultant", "Renewable Energy Project Manager", "Environmental Engineer"],
    "Biotechnology & Genomics" := ["Biotechnologist", "Genomic Scientist", "Research Scientist (Biology/Chemistry)", "Pharmaceutical Scientist", "Bioinformatics Analyst", "Genetic Counselor"],
    "Robotics & Automation" := ["Robotics Engineer", "Automation Engineer", "Control Systems Engineer", "Robotics Technician", "AI Robotics Specialist", "Robotics Programmer"],
    "Data Analytics & Business Intelligence" := ["Data Analyst", "Business Intelligence Analyst", "Data Engineer", "Data Visualization Specialist", "Market Research Analyst", "Statistician"],
    "Internet of Things & Embedded Systems" := ["IoT Engineer", "Embedded Systems Engineer", "Firmware Engineer", "IoT Solutions Architect", "Sensor Technology Specialist", "Smart City Planner"],
    "Blockchain & Web3 Technologies" := ["Blockchain Developer", "Smart Contract Auditor", "Web3 Developer", "Cryptocurrency Analyst", "NFT Strategist", "Decentralized Finance (DeFi) Specialist"],
    "Civil Engineering" := ["Structural Engineer", "Transportation Engineer", "Geotechnical Engineer", "Water Resources Engineer", "Construction Manager", "Urban Planner"],
    "Architecture" := ["Architect", "Urban Planner", "Landscape Architect", "Sustainable Architect", "Architectural Designer", "BIM Manager", "Interior Designer"],
    "Business & Entrepreneurship" := ["Business Owner", "Entrepreneur", "Startup Founder", "CEO", "Marketing Manager", "Sales Manager", "Business Analyst", "Management Consultant", "Financial Manager"]
  ]

  /** Soft skills returned with every career recommendation. */
  const EVERGREEN_SOFT_SKILLS: seq<string> := [
    "Problem-solving",
    "Communication",
    "Critical thinking",
    "Continuous learning",
    "Teamwork",
    "Adaptability",
    "Ethical considerations",
    "Data analysis fundamentals",
    "Basic programming principles",
    "Project management basics"
  ]

  /** The scripted intake questions, asked in this order. */
  const PERSONALITY_QUESTIONS: seq<string> := [
    "How would you describe your energy levels in social situations?",
    "Do you prefer to plan things out in detail or go with the flow?",
    "How do you typically handle disagreements with others?",
    "Are you more comfortable in structured environments or unstructured ones?",
    "Do you enjoy meeting new people, or do you prefer to stick with familiar faces?",
    "What types of activities make you lose track of time?",
    "Do you consider yourself more of a thinker or a feeler when making decisions?",
    "How do you approach setting and achieving personal goals?",
    "Do you enjoy taking risks, or do you prefer to play it safe?",
    "How do you recharge after a long day or week?"
  ]

  /** The catalogue lists 18 focus areas, no two alike. */
  lemma FocusAreasDistinct()
    ensures |FOCUS_AREAS| == 18
    ensures forall i, j :: 0 <= i < j < |FOCUS_AREAS| ==> FOCUS_AREAS[i] != FOCUS_AREAS[j]
  {
  }

  /** The career table has an entry for exactly the catalogued focus areas. */
  lemma CareerTableCoversFocusAreas()
    ensures forall a :: a in FOCUS_AREAS <==> a in CAREER_RECOMMENDATIONS
  {
    FocusAreasInTable();
    TableKeysAreFocusAreas();
  }

  lemma FocusAreasInTable()
    ensures forall a :: a in FOCUS_AREAS ==> a in CAREER_RECOMMENDATIONS
  {
  }

  lemma TableKeysAreFocusAreas()
    ensures forall a :: a in CAREER_RECOMMENDATIONS ==> a in FOCUS_AREAS
  {
  }

  /** Every focus area has at least one career. */
  lemma CareerListsNonEmpty()
    ensures forall a :: a in CAREER_RECOMMENDATIONS ==> |CAREER_RECOMMENDATIONS[a]| > 0
  {
  }

  /** The Civil Engineering entry, in full. */
  lemma CivilEngineeringCareers()
    ensures "Civil Engineering" in CAREER_RECOMMENDATIONS
    ensures CAREER_RECOMMENDATIONS["Civil Engineering"] == ["Structural Engineer", "Transportation Engineer", "Geotechnical Engineer", "Water Resources Engineer", "Construction Manager", "Urban Planner"]
  {
  }

  /** Career names are not unique across areas: Urban Planner is listed twice. */
  lemma UrbanPlannerListedTwice()
    ensures "Civil Engineering" in CAREER_RECOMMENDATIONS && "Architecture" in CAREER_RECOMMENDATIONS
    ensures "Urban Planner" in CAREER_RECOMMENDATIONS["Civil Engineering"]
    ensures "Urban Planner" in CAREER_RECOMMENDATIONS["Architecture"]
  {
  }

  /** Ten soft skills and ten personality questions. */
  lemma TableSizes()
    ensures |EVERGREEN_SOFT_SKILLS| == 10
    ensures |PERSONALITY_QUESTIONS| == 10
  {
  }
}
